/**
 * Command builder: the argument lists handed to `conda`, the install target
 * token, and the splicing of channel flags and extra arguments after the
 * executable and sub-command (conda.py:79-105, 178-188, 201, 215-217, 227-229).
 */
module Commands {
  import opened Wrappers
  import opened PyText

  /** Python truthiness of an optional string parameter: neither `None` nor `""`. */
  predicate Truthy(o: Option<string>) {
    o.Some? && o.value != ""
  }

  /** The tokens `s.strip().split()` of a truthy parameter, none otherwise. */
  function Tokens(o: Option<string>): seq<string> {
    if Truthy(o) then Words(Strip(o.value)) else []
  }

  /** How many leading tokens `command[:2]` keeps (Python slicing never fails on short lists). */
  function Cut(command: seq<string>): (k: nat)
    ensures k <= |command| && (k == 2 || k == |command|)
  {
    if |command| < 2 then |command| else 2
  }

  /** `--channel c` for each channel `c`, in order. */
  function ChannelPairs(cs: seq<string>): (r: seq<string>)
    ensures |r| == 2 * |cs|
  {
    if cs == [] then [] else ["--channel", cs[0]] + ChannelPairs(cs[1..])
  }

  /** The pair for the j-th channel sits at positions 2j and 2j + 1. */
  lemma {:induction false} ChannelPairsAt(cs: seq<string>, j: nat)
    requires j < |cs|
    ensures ChannelPairs(cs)[2 * j] == "--channel" && ChannelPairs(cs)[2 * j + 1] == cs[j]
  {
    if j > 0 {
      ChannelPairsAt(cs[1..], j - 1);
    }
  }

  lemma {:induction false} ChannelPairsSnoc(cs: seq<string>, c: string)
    ensures ChannelPairs(cs + [c]) == ChannelPairs(cs) + ["--channel", c]
  {
    if cs != [] {
      assert (cs + [c])[1..] == cs[1..] + [c];
      ChannelPairsSnoc(cs[1..], c);
    }
  }

  /** `add_channels_to_command`: two more tokens per channel; the positions are given by `ChannelInjection` and `ChannelPositions`. */
  function InjectChannels(command: seq<string>, channels: Option<string>): (r: seq<string>)
    ensures |r| == |command| + 2 * |Tokens(channels)|
  {
    if Truthy(channels) then
      var h := Cut(command);
      command[..h] + ChannelPairs(Tokens(channels)) + command[h..]
    else command
  }

  /** Where the three parts of `x + y + z` sit. */
  lemma {:induction false} Splice(x: seq<string>, y: seq<string>, z: seq<string>)
    ensures var r := x + y + z;
      && |r| == |x| + |y| + |z|
      && r[..|x|] == x
      && r[|x|..|x| + |y|] == y
      && r[|x| + |y|..] == z
  {
  }

  /** The i-th element of the middle part of `x + y + z`. */
  lemma {:induction false} SpliceAt(r: seq<string>, x: seq<string>, y: seq<string>, z: seq<string>, i: nat)
    requires r == x + y + z && i < |y|
    ensures r[|x| + i] == y[i]
  {
  }

  /**
   * Channel injection: a falsy value leaves the command as it is; otherwise
   * the n `--channel c` pairs go in at index 2 (or the end of a shorter
   * command), both halves of the command are kept, and the length grows by 2n.
   * `ChannelPositions` gives the pairs' contents.
   */
  lemma {:induction false} ChannelInjection(command: seq<string>, channels: Option<string>)
    ensures !Truthy(channels) ==> InjectChannels(command, channels) == command
    ensures var r, n, h := InjectChannels(command, channels), |Tokens(channels)|, Cut(command);
      && |r| == |command| + 2 * n
      && r[..h] == command[..h]
      && r[h + 2 * n..] == command[h..]
  {
    if Truthy(channels) {
      var h := Cut(command);
      PairsSplice(command[..h], Tokens(channels), command[h..], InjectChannels(command, channels));
    }
  }

  /** The pair of the j-th channel token sits at positions h + 2j and h + 2j + 1, h being 2 or less. */
  lemma {:induction false} ChannelPositions(command: seq<string>, channels: Option<string>, j: nat)
    requires j < |Tokens(channels)|
    ensures var r, h := InjectChannels(command, channels), Cut(command);
      r[h + 2 * j] == "--channel" && r[h + 2 * j + 1] == Tokens(channels)[j]
  {
    var r, cs, h := InjectChannels(command, channels), Tokens(channels), Cut(command);
    assert Truthy(channels);
    var x, z := command[..h], command[h..];
    assert r == x + ChannelPairs(cs) + z;
    PairAt(x, cs, z, r, j);
    assert |x| == h;
  }

  /** Where the two outer parts of `x + [--channel c for c in cs] + z` sit. */
  lemma {:induction false} PairsSplice(x: seq<string>, cs: seq<string>, z: seq<string>, r: seq<string>)
    requires r == x + ChannelPairs(cs) + z
    ensures r[..|x|] == x && r[|x| + 2 * |cs|..] == z
  {
    Splice(x, ChannelPairs(cs), z);
  }

  /** Where the pair of the j-th channel in `x + [--channel c for c in cs] + z` sits. */
  lemma {:induction false} PairAt(x: seq<string>, cs: seq<string>, z: seq<string>, r: seq<string>, j: nat)
    requires r == x + ChannelPairs(cs) + z && j < |cs|
    ensures r[|x| + 2 * j] == "--channel" && r[|x| + 2 * j + 1] == cs[j]
  {
    ChannelPairsAt(cs, j);
    SpliceAt(r, x, ChannelPairs(cs), z, 2 * j);
    SpliceAt(r, x, ChannelPairs(cs), z, 2 * j + 1);
  }

  /** `add_extras_to_command`. */
  function InjectExtras(command: seq<string>, extras: Option<string>): (r: seq<string>)
    ensures !Truthy(extras) ==> r == command
    ensures var es, h := Tokens(extras), Cut(command);
      && |r| == |command| + |es|
      && r[..h] == command[..h]
      && r[h..h + |es|] == es
      && r[h + |es|..] == command[h..]
  {
    if Truthy(extras) then
      var h := Cut(command);
      Splice(command[..h], Tokens(extras), command[h..]);
      command[..h] + Tokens(extras) + command[h..]
    else command
  }

  /**
   * The command `_run_conda_command` hands to the process: channels spliced in
   * first, extras second. It grows by the number of extras plus two per
   * channel, and on a command of at least two tokens the extras come right
   * after the sub-command, before the channel pairs.
   */
  function FinalCommand(command: seq<string>, channels: Option<string>, extras: Option<string>): (r: seq<string>)
    ensures |r| == |command| + |Tokens(extras)| + 2 * |Tokens(channels)|
    ensures !Truthy(channels) && !Truthy(extras) ==> r == command
    ensures |command| >= 2 ==> r == command[..2] + Tokens(extras) + ChannelPairs(Tokens(channels)) + command[2..]
  {
    if |command| >= 2 then
      ChannelsAtTwo(command, channels);
      ExtrasAtTwo(InjectChannels(command, channels), extras);
      SpliceTwice(command, ChannelPairs(Tokens(channels)), Tokens(extras));
      InjectExtras(InjectChannels(command, channels), extras)
    else
      InjectExtras(InjectChannels(command, channels), extras)
  }

  /** The `for` loop of `add_channels_to_command` (lines 86-89): `dashc` grows by one pair per channel. */
  method ChannelFlags(cs: seq<string>) returns (dashc: seq<string>)
    ensures dashc == ChannelPairs(cs)
  {
    dashc := [];
    for i := 0 to |cs|
      invariant dashc == ChannelPairs(cs[..i])
    {
      assert cs[..i + 1] == cs[..i] + [cs[i]];
      ChannelPairsSnoc(cs[..i], cs[i]);
      dashc := dashc + ["--channel", cs[i]];
    }
    assert cs[..|cs|] == cs;
  }

  /** `add_channels_to_command` as written: the flags built by the loop are spliced in at index 2. */
  method AddChannelsToCommand(command: seq<string>, channels: Option<string>) returns (r: seq<string>)
    ensures r == InjectChannels(command, channels)
  {
    if !Truthy(channels) {
      return command;
    }
    var dashc := ChannelFlags(Tokens(channels));
    var h := Cut(command);
    r := command[..h] + dashc + command[h..];
  }

  /**
   * `get_install_target`: the name comes first; the target is longer than
   * the name exactly when there is a version, which then follows an `=`.
   */
  function InstallTarget(name: string, version: Option<string>): (r: string)
    ensures |name| <= |r| && r[..|name|] == name
    ensures version.None? <==> |r| == |name|
    ensures version.Some? ==> r[|name|] == '=' && r[|name| + 1..] == version.value
  {
    if version.None? then name else name + "=" + version.value
  }

  /** Reads an install target back: the text before and after the first `=`. */
  function SplitTarget(target: string): (r: (string, Option<string>))
    ensures r.1.None? ==> r.0 == target && '=' !in target
    ensures r.1.Some? ==> target == r.0 + "=" + r.1.value && '=' !in r.0
  {
    if target == [] then (target, None)
    else if target[0] == '=' then ("", Some(target[1..]))
    else
      var (n, v) := SplitTarget(target[1..]);
      assert v.Some? ==> [target[0]] + n + "=" + v.value == target;
      ([target[0]] + n, v)
  }

  /** Round trip: for a name without `=`, the install target determines the name and the version. */
  lemma {:induction false} InstallTargetRoundTrip(name: string, version: Option<string>)
    requires '=' !in name
    ensures SplitTarget(InstallTarget(name, version)) == (name, version)
  {
    if name == [] {
      if version.Some? {
        assert InstallTarget(name, version) == "=" + version.value;
      }
    } else {
      var t := InstallTarget(name, version);
      InstallTargetRoundTrip(name[1..], version);
      assert t[0] == name[0] && t[1..] == InstallTarget(name[1..], version);
      var (n, v) := SplitTarget(t[1..]);
      assert SplitTarget(t) == ([t[0]] + n, v);
      assert [name[0]] + name[1..] == name;
    }
  }

  /** The dry-run query of `_check_package_installed`: five tokens, the target last. */
  function QueryCommand(conda: string, target: string): (r: seq<string>)
    ensures |r| == 5 && r[..2] == [conda, "install"] && r[4] == target
  {
    [conda, "install", "--json", "--dry-run", target]
  }

  /** The command `_install_package` runs; check mode adds `--dry-run` just before the target. */
  function InstallCommand(conda: string, target: string, checkMode: bool): (r: seq<string>)
    ensures |r| == if checkMode then 6 else 5
    ensures r[..2] == [conda, "install"] && r[|r| - 1] == target
  {
    [conda, "install", "--yes", "--json"] + (if checkMode then ["--dry-run"] else []) + [target]
  }

  /** The command `_uninstall_package` runs; check mode adds `--dry-run` just before the name. */
  function RemoveCommand(conda: string, name: string, checkMode: bool): (r: seq<string>)
    ensures |r| == if checkMode then 6 else 5
    ensures r[..2] == [conda, "remove"] && r[|r| - 1] == name
  {
    [conda, "remove", "--yes", "--json"] + (if checkMode then ["--dry-run"] else []) + [name]
  }

  /** Python's `command.insert(-1, token)` on a non-empty list. */
  function InsertBeforeLast(command: seq<string>, token: string): (r: seq<string>)
    requires command != []
    ensures |r| == |command| + 1
    ensures r[..|command| - 1] == command[..|command| - 1]
    ensures r[|r| - 2] == token && r[|r| - 1] == command[|command| - 1]
  {
    command[..|command| - 1] + [token, command[|command| - 1]]
  }

  /** `_install_package` lines 215-217: build the list, then insert `--dry-run` in check mode. */
  method BuildInstallCommand(conda: string, name: string, version: Option<string>, checkMode: bool)
    returns (command: seq<string>)
    ensures command == InstallCommand(conda, InstallTarget(name, version), checkMode)
  {
    command := [conda, "install", "--yes", "--json", InstallTarget(name, version)];
    if checkMode {
      command := InsertBeforeLast(command, "--dry-run");
    }
  }

  /** `_uninstall_package` lines 227-229. */
  method BuildRemoveCommand(conda: string, name: string, checkMode: bool) returns (command: seq<string>)
    ensures command == RemoveCommand(conda, name, checkMode)
  {
    command := [conda, "remove", "--yes", "--json", name];
    if checkMode {
      command := InsertBeforeLast(command, "--dry-run");
    }
  }

  /**
   * The three commands token by token (conda.py:201, 215, 227), and check
   * mode as `insert(-1, "--dry-run")` on the plain install and remove lists.
   */
  lemma {:induction false} CommandShapes(conda: string, target: string)
    ensures QueryCommand(conda, target) == [conda, "install", "--json", "--dry-run", target]
    ensures InstallCommand(conda, target, false) == [conda, "install", "--yes", "--json", target]
    ensures InstallCommand(conda, target, true) == [conda, "install", "--yes", "--json", "--dry-run", target]
    ensures InstallCommand(conda, target, true) == InsertBeforeLast(InstallCommand(conda, target, false), "--dry-run")
    ensures RemoveCommand(conda, target, false) == [conda, "remove", "--yes", "--json", target]
    ensures RemoveCommand(conda, target, true) == [conda, "remove", "--yes", "--json", "--dry-run", target]
    ensures RemoveCommand(conda, target, true) == InsertBeforeLast(RemoveCommand(conda, target, false), "--dry-run")
  {
  }

  /** Whitespace-only or empty channels leave the command as it is. */
  lemma {:induction false} BlankChannelsUnchanged(command: seq<string>, channels: Option<string>)
    requires channels.None? || AllSpace(channels.value)
    ensures InjectChannels(command, channels) == command
  {
    if Truthy(channels) {
      WordsOfStrip(channels.value);
      var r := InjectChannels(command, channels);
      assert |r| == |command|;
      var h := Cut(command);
      assert command == command[..h] + command[h..];
    }
  }

  /** A parameter written as words separated by single spaces splits back into those words. */
  lemma {:induction false} TokensOfJoin(cs: seq<string>)
    requires cs != [] && forall i :: 0 <= i < |cs| ==> IsWord(cs[i])
    ensures Truthy(Some(Join(" ", cs))) && Tokens(Some(Join(" ", cs))) == cs
  {
    var s := Join(" ", cs);
    WordsOfJoin(cs);
    WordsOfStrip(s);
  }

  /** Channels given as `c1 c2 ... cn`: the pairs `--channel ci` take index 2 onwards, the rest follows. */
  lemma {:induction false} ChannelsOfWords(command: seq<string>, cs: seq<string>)
    requires |command| >= 2
    requires cs != [] && forall i :: 0 <= i < |cs| ==> IsWord(cs[i])
    ensures InjectChannels(command, Some(Join(" ", cs))) == command[..2] + ChannelPairs(cs) + command[2..]
  {
    TokensOfJoin(cs);
    ChannelsAtTwo(command, Some(Join(" ", cs)));
  }

  /** On a command of at least two tokens, the pairs always go at index 2, even when there are none. */
  lemma {:induction false} ChannelsAtTwo(command: seq<string>, channels: Option<string>)
    requires |command| >= 2
    ensures InjectChannels(command, channels) == command[..2] + ChannelPairs(Tokens(channels)) + command[2..]
  {
    if !Truthy(channels) {
      assert command == command[..2] + command[2..];
    }
  }

  /** On a command of at least two tokens, the extras always go at index 2, even when there are none. */
  lemma {:induction false} ExtrasAtTwo(command: seq<string>, extras: Option<string>)
    requires |command| >= 2
    ensures InjectExtras(command, extras) == command[..2] + Tokens(extras) + command[2..]
  {
    if !Truthy(extras) {
      assert command == command[..2] + command[2..];
    }
  }

  /** Inserting `pairs` at index 2 and then `es` at index 2 puts `es` before `pairs`. */
  lemma {:induction false} SpliceTwice(command: seq<string>, pairs: seq<string>, es: seq<string>)
    requires |command| >= 2
    ensures var c := command[..2] + pairs + command[2..];
      c[..2] + es + c[2..] == command[..2] + es + pairs + command[2..]
  {
    var c := command[..2] + pairs + command[2..];
    assert c[..2] == command[..2];
    assert c[2..] == pairs + command[2..];
  }
}
