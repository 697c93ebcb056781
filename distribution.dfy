/**
 * Starting bots on remote hosts: the command parser shared by
 * Go/src/Programmierwettbewerb-Distribution/distributionServer.go
 * (`parseCommand`) and Go/src/Programmierwettbewerb-Server/distribution/distribution.go
 * (`parseRunCommand`, which is the same code reading its svn list from the
 * configuration), the expansion of `all` in `RemoteStartBots`, the host
 * assignment of `startBots` and the command classification of
 * `interactiveRemoteInterface`.  `strconv.Atoi` is a parameter; ssh, the
 * configuration file and the terminal are not part of this model.
 */
module Distribution {
  import opened Wrappers
  import opened Middleware

  /** The part of `Config` the commands read. */
  datatype Config = Config(hosts: seq<string>, svns: seq<string>)

  /*
   * The string functions of Go's `strings` package that the parser uses
   */

  /** `strings.TrimLeft`: drop leading characters of the cut set. */
  function TrimLeft(s: string, cutset: string): (r: string)
    ensures |r| <= |s|
    ensures |r| > 0 ==> r[0] !in cutset
    decreases |s|
  {
    if |s| > 0 && s[0] in cutset then TrimLeft(s[1..], cutset) else s
  }

  /** `strings.TrimRight`: drop trailing characters of the cut set. */
  function TrimRight(s: string, cutset: string): (r: string)
    ensures |r| <= |s|
    ensures |r| > 0 ==> r[|r| - 1] !in cutset
    decreases |s|
  {
    if |s| > 0 && s[|s| - 1] in cutset then TrimRight(s[..|s| - 1], cutset) else s
  }

  /** `strings.Trim`. */
  function Trim(s: string, cutset: string): (r: string)
    ensures |r| <= |s|
    ensures |r| > 0 ==> r[|r| - 1] !in cutset
  {
    TrimRight(TrimLeft(s, cutset), cutset)
  }

  /** `TrimLeft` keeps a suffix and drops only characters of the cut set. */
  lemma {:induction false} TrimLeftDrops(s: string, cutset: string)
    ensures var r := TrimLeft(s, cutset);
      && r == s[|s| - |r|..]
      && forall i :: 0 <= i < |s| - |r| ==> s[i] in cutset
    decreases |s|
  {
    if |s| > 0 && s[0] in cutset {
      var tail := s[1..];
      TrimLeftDrops(tail, cutset);
      var r := TrimLeft(tail, cutset);
      assert TrimLeft(s, cutset) == r;
      assert tail[|tail| - |r|..] == s[|s| - |r|..];
    }
  }

  /** `TrimRight` keeps a prefix and drops only characters of the cut set. */
  lemma {:induction false} TrimRightDrops(s: string, cutset: string)
    ensures var r := TrimRight(s, cutset);
      && r == s[..|r|]
      && forall i :: |r| <= i < |s| ==> s[i] in cutset
    decreases |s|
  {
    if |s| > 0 && s[|s| - 1] in cutset {
      var init := s[..|s| - 1];
      TrimRightDrops(init, cutset);
      var r := TrimRight(init, cutset);
      assert TrimRight(s, cutset) == r;
      assert init[..|r|] == s[..|r|];
    }
  }

  /** No character of `s` is in the cut set. */
  predicate Untouched(s: string, cutset: string) {
    forall i :: 0 <= i < |s| ==> s[i] !in cutset
  }

  /** Trimming a string none of whose characters is in the cut set keeps it. */
  lemma TrimUntouched(s: string, cutset: string)
    requires Untouched(s, cutset)
    ensures Trim(s, cutset) == s
  {
    if |s| > 0 {
      assert s[0] !in cutset && s[|s| - 1] !in cutset;
    }
  }

  /** The separator function handed to `strings.FieldsFunc`. */
  predicate IsSeparator(c: char) {
    c == ',' || c == '[' || c == ']' || c == ' '
  }

  /** A field of `strings.FieldsFunc`: non-empty and without separators. */
  predicate Word(w: string) {
    |w| > 0 && forall j :: 0 <= j < |w| ==> !IsSeparator(w[j])
  }

  /** `strings.FieldsFunc(s, IsSeparator)`: the maximal runs of non-separators, in order. */
  function Fields(s: string): (r: seq<string>)
    ensures forall i :: 0 <= i < |r| ==> Word(r[i])
    decreases |s|
  {
    if |s| == 0 then []
    else if IsSeparator(s[0]) then Fields(s[1..])
    else
      var rest := Fields(s[1..]);
      if |s| > 1 && !IsSeparator(s[1]) then [[s[0]] + rest[0]] + rest[1..] else [[s[0]]] + rest
  }

  /** A word followed by nothing or by a separator is one field. */
  lemma {:induction false} FieldsWord(w: string, rest: string)
    requires Word(w) && (|rest| == 0 || IsSeparator(rest[0]))
    ensures Fields(w + rest) == [w] + Fields(rest)
    decreases |w|
  {
    var s := w + rest;
    assert s[1..] == w[1..] + rest;
    if |w| == 1 {
      assert w == [w[0]];
      if |rest| > 0 {
        assert s[1] == rest[0];
      }
    } else {
      FieldsWord(w[1..], rest);
      assert s[1] == w[1];
      assert [w[0]] + w[1..] == w;
    }
  }

  /** Words joined by commas come back from `FieldsFunc` unchanged: `a,b` gives `a` and `b`. */
  lemma {:induction false} FieldsJoin(ws: seq<string>)
    requires forall i :: 0 <= i < |ws| ==> Word(ws[i])
    ensures Fields(Join(ws)) == ws
    decreases |ws|
  {
    if |ws| == 1 {
      FieldsWord(ws[0], "");
      assert ws[0] + "" == ws[0];
    } else if |ws| > 1 {
      FieldsJoin(ws[1..]);
      var tail := "," + Join(ws[1..]);
      assert Join(ws) == ws[0] + tail;
      FieldsWord(ws[0], tail);
      assert tail[1..] == Join(ws[1..]);
      assert ws == [ws[0]] + ws[1..];
    }
  }

  /*
   * `isValidSVN` and the selection `parseCommand` computes
   */

  /** `isValidSVN`: the search of the configured list, returning at the first match. */
  function IsValidSvn(v: string, svns: seq<string>): (b: bool)
    ensures b <==> v in svns
  {
    if |svns| == 0 then false
    else if v == svns[0] then true
    else
      assert svns == [svns[0]] + svns[1..];
      IsValidSvn(v, svns[1..])
  }

  /** `botCount`: 1 unless the second word is an integer. */
  function BotCount(commandSlice: seq<string>, atoi: string -> Option<int>): int {
    if |commandSlice| > 1 && atoi(commandSlice[1]).Some? then atoi(commandSlice[1]).value else 1
  }

  /** `svnList`: every configured svn for `all`, a configured svn by itself, else the fields of a bracket list. */
  function Selected(word: string, svns: seq<string>): seq<string> {
    if word == "all" then svns
    else if IsValidSvn(word, svns) then [word]
    else Fields(Trim(word, "[]"))
  }

  /** `n` copies of `name`; none when `n` is not positive. */
  function Repeat(name: string, n: int): (r: seq<string>)
    ensures |r| == if n < 0 then 0 else n
    ensures forall i :: 0 <= i < |r| ==> r[i] == name
  {
    seq(if n < 0 then 0 else n, _ => name)
  }

  /** What one entry of `svnList` contributes: its trimmed name `n` times when that name is configured. */
  function Copies(svn: string, svns: seq<string>, n: int): seq<string> {
    var clean := Trim(svn, " ");
    if IsValidSvn(clean, svns) then Repeat(clean, n) else []
  }

  /** `finalSvnList` after the entries `list` of `svnList`. */
  function Repeated(list: seq<string>, svns: seq<string>, n: int): seq<string>
    decreases |list|
  {
    if |list| == 0 then [] else Repeated(list[..|list| - 1], svns, n) + Copies(list[|list| - 1], svns, n)
  }

  /** The result of `parseCommand` and of `parseRunCommand`. */
  function Selection(commandSlice: seq<string>, svns: seq<string>, atoi: string -> Option<int>): seq<string> {
    if |commandSlice| == 0 then []
    else Repeated(Selected(commandSlice[0], svns), svns, BotCount(commandSlice, atoi))
  }

  /** The trimmed entries of `list` that are configured, in order: the names that are started. */
  function ValidNames(list: seq<string>, svns: seq<string>): (r: seq<string>)
    ensures forall i :: 0 <= i < |r| ==> r[i] in svns
    decreases |list|
  {
    if |list| == 0 then []
    else
      var clean := Trim(list[|list| - 1], " ");
      ValidNames(list[..|list| - 1], svns) + (if clean in svns then [clean] else [])
  }

  /**
   * `parseCommand` (and `parseRunCommand`, the same code): the bot count,
   * the selected svn list, then each configured name `botCount` times.
   */
  method ParseCommand(commandSlice: seq<string>, svns: seq<string>, atoi: string -> Option<int>)
    returns (r: seq<string>)
    ensures r == Selection(commandSlice, svns, atoi)
  {
    var botCount := 1;
    if |commandSlice| > 1 {
      var v := atoi(commandSlice[1]);
      if v.Some? {
        botCount := v.value;
      }
    }
    if |commandSlice| > 0 {
      var svnList: seq<string>;
      if commandSlice[0] == "all" {
        svnList := svns;
      } else if IsValidSvn(commandSlice[0], svns) {
        svnList := [commandSlice[0]];
      } else {
        svnList := Fields(Trim(commandSlice[0], "[]"));
      }
      assert svnList == Selected(commandSlice[0], svns);
      r := RepeatValid(svnList, svns, botCount);
      return;
    }
    return [];
  }

  /** The loop of `parseCommand` over `svnList`: each configured trimmed name `n` times. */
  method RepeatValid(svnList: seq<string>, svns: seq<string>, n: int) returns (finalSvnList: seq<string>)
    ensures finalSvnList == Repeated(svnList, svns, n)
  {
    finalSvnList := [];
    var k := 0;
    while k < |svnList|
      invariant 0 <= k <= |svnList|
      invariant finalSvnList == Repeated(svnList[..k], svns, n)
    {
      var cleanSvn := Trim(svnList[k], " ");
      if IsValidSvn(cleanSvn, svns) {
        finalSvnList := AppendCopies(finalSvnList, cleanSvn, n);
      }
      assert svnList[..k + 1][..k] == svnList[..k];
      k := k + 1;
    }
    assert svnList[..k] == svnList;
  }

  /** The inner loop of `parseCommand`: append `name` `n` times. */
  method AppendCopies(list: seq<string>, name: string, n: int) returns (r: seq<string>)
    ensures r == list + Repeat(name, n)
  {
    r := list;
    var i := 0;
    while i < n
      invariant 0 <= i <= if n < 0 then 0 else n
      invariant r == list + Repeat(name, i)
    {
      assert Repeat(name, i + 1) == Repeat(name, i) + [name];
      r := r + [name];
      i := i + 1;
    }
    if n < 0 {
      assert |Repeat(name, n)| == 0;
    }
  }

  /*
   * What the selection contains
   */

  /** Each name of `v`, in order, `n` times in a row. */
  function Blocks(v: seq<string>, n: int): seq<string>
    decreases |v|
  {
    if |v| == 0 then [] else Blocks(v[..|v| - 1], n) + Repeat(v[|v| - 1], n)
  }

  /** The selection loop starts the configured names in order, each `n` times in a row. */
  lemma {:induction false} RepeatedBlocks(list: seq<string>, svns: seq<string>, n: int)
    ensures Repeated(list, svns, n) == Blocks(ValidNames(list, svns), n)
    decreases |list|
  {
    if |list| > 0 {
      var init := list[..|list| - 1];
      RepeatedBlocks(init, svns, n);
      var v0 := ValidNames(init, svns);
      var clean := Trim(list[|list| - 1], " ");
      if clean in svns {
        assert (v0 + [clean])[..|v0|] == v0;
        assert Blocks(v0 + [clean], n) == Blocks(v0, n) + Repeat(clean, n);
      } else {
        assert ValidNames(list, svns) == v0;
      }
    }
  }

  /** Blocks of a count that is not positive are empty. */
  lemma {:induction false} BlocksNone(v: seq<string>, n: int)
    requires n <= 0
    ensures Blocks(v, n) == []
    decreases |v|
  {
    if |v| > 0 {
      BlocksNone(v[..|v| - 1], n);
    }
  }

  /** Every name started is configured. */
  lemma {:induction false} RepeatedValid(list: seq<string>, svns: seq<string>, n: int)
    ensures forall i :: 0 <= i < |Repeated(list, svns, n)| ==> Repeated(list, svns, n)[i] in svns
    decreases |list|
  {
    if |list| > 0 {
      RepeatedValid(list[..|list| - 1], svns, n);
    }
  }

  /** Entries that are configured and free of blanks are all started, in order. */
  lemma {:induction false} ValidNamesKeep(list: seq<string>, svns: seq<string>)
    requires forall i :: 0 <= i < |list| ==> list[i] in svns && Untouched(list[i], " ")
    ensures ValidNames(list, svns) == list
    decreases |list|
  {
    if |list| > 0 {
      ValidNamesKeep(list[..|list| - 1], svns);
      TrimUntouched(list[|list| - 1], " ");
    }
  }

  /** Fields never hold a blank, so trimming keeps them and only membership filters them. */
  lemma {:induction false} ValidFields(list: seq<string>, svns: seq<string>)
    requires forall i :: 0 <= i < |list| ==> Word(list[i])
    ensures ValidNames(list, svns) == Members(list, svns)
    decreases |list|
  {
    if |list| > 0 {
      ValidFields(list[..|list| - 1], svns);
      TrimUntouched(list[|list| - 1], " ");
    }
  }

  /** The entries of `list` that are in `svns`, in order. */
  function Members(list: seq<string>, svns: seq<string>): (r: seq<string>)
    ensures |r| <= |list|
    decreases |list|
  {
    if |list| == 0 then []
    else Members(list[..|list| - 1], svns) + (if list[|list| - 1] in svns then [list[|list| - 1]] else [])
  }

  /**
   * The selection of `parseCommand`: nothing for an empty command; the
   * count is the second word when it is an integer, else 1; nothing for a
   * count that is not positive; otherwise the started names, each `count`
   * times in a row, and only configured names.
   */
  lemma SelectionShape(commandSlice: seq<string>, svns: seq<string>, atoi: string -> Option<int>)
    ensures var r, n := Selection(commandSlice, svns, atoi), BotCount(commandSlice, atoi);
      && (|commandSlice| == 0 ==> r == [])
      && (n == if |commandSlice| > 1 && atoi(commandSlice[1]).Some? then atoi(commandSlice[1]).value else 1)
      && (|commandSlice| < 2 ==> n == 1)
      && (n <= 0 ==> r == [])
      && (forall i :: 0 <= i < |r| ==> r[i] in svns)
      && (|commandSlice| > 0 ==> r == Blocks(ValidNames(Selected(commandSlice[0], svns), svns), n))
  {
    if |commandSlice| > 0 {
      var list, n := Selected(commandSlice[0], svns), BotCount(commandSlice, atoi);
      RepeatedValid(list, svns, n);
      RepeatedBlocks(list, svns, n);
      if n <= 0 {
        BlocksNone(ValidNames(list, svns), n);
      }
    }
  }

  /** `all` starts every configured svn, in order, when no name carries blanks. */
  lemma SelectAll(svns: seq<string>)
    requires forall i :: 0 <= i < |svns| ==> Untouched(svns[i], " ")
    ensures ValidNames(Selected("all", svns), svns) == svns
  {
    ValidNamesKeep(svns, svns);
  }

  /** A configured svn other than `all` given by itself starts just that svn. */
  lemma SelectOne(word: string, svns: seq<string>)
    requires word != "all" && word in svns && Untouched(word, " ")
    ensures ValidNames(Selected(word, svns), svns) == [word]
  {
    ValidNamesKeep([word], svns);
  }

  /**
   * Any other word is read as a bracket list: the configured fields of the
   * word stripped of its outer brackets, split on `,`, `[`, `]` and blanks.
   */
  lemma SelectList(word: string, svns: seq<string>)
    requires word != "all" && word !in svns
    ensures var fields := Fields(Trim(word, "[]"));
      ValidNames(Selected(word, svns), svns) == Members(fields, svns)
  {
    ValidFields(Fields(Trim(word, "[]")), svns);
  }

  /** `[a,b]` is read as a bracket list of `a` and `b`. */
  lemma SelectedBracketList()
    ensures Selected("[a,b]", ["a", "b"]) == ["a", "b"]
  {
    assert Trim("[a,b]", "[]") == "a,b" by {
      assert TrimLeft("[a,b]", "[]") == "a,b]" by { assert "[a,b]"[1..] == "a,b]"; }
      assert TrimRight("a,b]", "[]") == "a,b" by { assert "a,b]"[..3] == "a,b"; }
    }
    assert Join(["a", "b"]) == "a,b";
    FieldsJoin(["a", "b"]);
    assert "[a,b]" !in ["a", "b"];
  }

  /** Two names, each repeated twice, in order. */
  lemma BlocksExample()
    ensures Blocks(["a", "b"], 2) == ["a", "a", "b", "b"]
  {
    var ab: seq<string> := ["a", "b"];
    assert ab[..1] == ["a"];
    assert ["a"][..0] == [];
    assert Repeat("a", 2) == ["a", "a"];
    assert Repeat("b", 2) == ["b", "b"];
    assert Blocks(["a"], 2) == ["a", "a"];
  }

  /** `[a,b]` with the count 2 starts `a`, `a`, `b`, `b`. */
  lemma SelectListExample(atoi: string -> Option<int>)
    requires atoi("2") == Some(2)
    ensures Selection(["[a,b]", "2"], ["a", "b"], atoi) == ["a", "a", "b", "b"]
  {
    var svns: seq<string> := ["a", "b"];
    var cmd: seq<string> := ["[a,b]", "2"];
    SelectedBracketList();
    assert BotCount(cmd, atoi) == 2 by { assert cmd[1] == "2"; }
    assert Selection(cmd, svns, atoi) == Repeated(svns, svns, 2) by { assert cmd[0] == "[a,b]"; }
    RepeatedBlocks(svns, svns, 2);
    ValidNamesKeep(svns, svns);
    BlocksExample();
  }

  /*
   * `RemoteStartBots` and `startBots`
   */

  /** The list `RemoteStartBots` tries to start: each `all` replaced by the configured svns. */
  function ExpandAll(botsToStart: seq<string>, configSvns: seq<string>): seq<string>
    decreases |botsToStart|
  {
    if |botsToStart| == 0 then []
    else
      var last := botsToStart[|botsToStart| - 1];
      ExpandAll(botsToStart[..|botsToStart| - 1], configSvns) + (if last == "all" then configSvns else [last])
  }

  /** The expansion loop of `RemoteStartBots`. */
  method ExpandBots(botsToStart: seq<string>, configSvns: seq<string>) returns (svns: seq<string>)
    ensures svns == ExpandAll(botsToStart, configSvns)
  {
    svns := [];
    for k := 0 to |botsToStart|
      invariant svns == ExpandAll(botsToStart[..k], configSvns)
    {
      if botsToStart[k] == "all" {
        svns := svns + configSvns;
      } else {
        svns := svns + [botsToStart[k]];
      }
      assert botsToStart[..k + 1][..k] == botsToStart[..k];
    }
    assert botsToStart[..|botsToStart|] == botsToStart;
  }

  /** The expansion works entry by entry. */
  lemma {:induction false} ExpandAllAppend(a: seq<string>, b: seq<string>, configSvns: seq<string>)
    ensures ExpandAll(a + b, configSvns) == ExpandAll(a, configSvns) + ExpandAll(b, configSvns)
    decreases |b|
  {
    if |b| > 0 {
      var b0 := b[..|b| - 1];
      assert (a + b)[..|a + b| - 1] == a + b0;
      ExpandAllAppend(a, b0, configSvns);
    } else {
      assert a + b == a;
    }
  }

  /** Without `all` the list is kept as it is. */
  lemma {:induction false} ExpandAllKeeps(botsToStart: seq<string>, configSvns: seq<string>)
    requires "all" !in botsToStart
    ensures ExpandAll(botsToStart, configSvns) == botsToStart
    decreases |botsToStart|
  {
    if |botsToStart| > 0 {
      var init := botsToStart[..|botsToStart| - 1];
      assert forall i :: 0 <= i < |init| ==> init[i] == botsToStart[i];
      ExpandAllKeeps(init, configSvns);
      assert init + [botsToStart[|botsToStart| - 1]] == botsToStart;
    }
  }

  /** `all` by itself is the configured list. */
  lemma ExpandAllOnly(configSvns: seq<string>)
    ensures ExpandAll(["all"], configSvns) == configSvns
  {
    assert ["all"][..0] == [];
  }

  /** The shell command started on a host for one bot. */
  function StartCommand(botName: string, serverIP: string): string {
    "nohup $(cd pwb_" + botName + "; ./Programmierwettbewerb-Middleware -connection ws://" + serverIP + "/middleware/) &"
  }

  /** One command sent over ssh to one host. */
  datatype Dispatch = Dispatch(hostname: string, command: string)

  /**
   * `startBots`: with more bots than hosts nothing is started and the
   * result is 0; otherwise bot `i` is started on host `i` and the result is
   * the number of bots.  The commands are returned rather than executed.
   */
  method StartBots(botsToStart: seq<string>, hosts: seq<string>, serverIP: string)
    returns (count: int, dispatched: seq<Dispatch>)
    ensures |botsToStart| > |hosts| ==> count == 0 && dispatched == []
    ensures |botsToStart| <= |hosts| ==> count == |botsToStart| && |dispatched| == |botsToStart|
    ensures forall i :: 0 <= i < |dispatched| ==>
      dispatched[i] == Dispatch(hosts[i], StartCommand(botsToStart[i], serverIP))
  {
    if |botsToStart| > |hosts| {
      return 0, [];
    }
    var executeOnHost := 0;
    dispatched := [];
    for k := 0 to |botsToStart|
      invariant executeOnHost == k == |dispatched|
      invariant forall i :: 0 <= i < |dispatched| ==>
        dispatched[i] == Dispatch(hosts[i], StartCommand(botsToStart[i], serverIP))
    {
      var hostname := hosts[executeOnHost];
      dispatched := dispatched + [Dispatch(hostname, StartCommand(botsToStart[k], serverIP))];
      executeOnHost := executeOnHost + 1;
    }
    count := |botsToStart|;
  }

  /** `RemoteStartBots`: expand `all`, then start the list on the configured hosts. */
  method RemoteStartBots(config: Config, botsToStart: seq<string>, serverIP: string)
    returns (count: int, dispatched: seq<Dispatch>)
    ensures var svns := ExpandAll(botsToStart, config.svns);
      && count == (if |svns| > |config.hosts| then 0 else |svns|)
      && |dispatched| == count
      && forall i :: 0 <= i < |dispatched| ==>
           dispatched[i] == Dispatch(config.hosts[i], StartCommand(svns[i], serverIP))
  {
    var svns := ExpandBots(botsToStart, config.svns);
    count, dispatched := StartBots(svns, config.hosts, serverIP);
  }

  /*
   * `interactiveRemoteInterface`
   */

  /** The status constants of the interactive loop. */
  datatype Status = Nothing | Help | Execute | Kill

  /** What one input line makes the loop do: return, or act on a status with the bots to start. */
  datatype Decision = Exit | Act(status: Status, botsToStart: seq<string>)

  /** The words of a line: trimmed of blanks, tabs and newlines, lower-cased, split on single blanks. */
  function Words(text: string): (r: seq<string>)
    ensures |r| >= 1
  {
    Split(ToLower(Trim(text, " \t\n")), ' ')
  }

  /** The `switch` on the first word. */
  function Classify(config: Config, text: string, atoi: string -> Option<int>): (d: Decision)
    ensures d.Exit? <==> Words(text)[0] == "exit"
    ensures d == Act(Kill, []) <==> Words(text)[0] == "kill"
    ensures d.Act? && d.status == Execute <==> Words(text)[0] == "go"
    ensures d.Act? && d.status == Execute ==> d.botsToStart == Selection(Words(text)[1..], config.svns, atoi)
    ensures d.Act? && d.status == Help <==> Words(text)[0] !in {"kill", "go", "exit"}
    ensures d.Act? ==> d.status != Nothing
  {
    var result := Words(text);
    match result[0]
    case "kill" => Act(Kill, [])
    case "go" => Act(Execute, Selection(result[1..], config.svns, atoi))
    case "exit" => Exit
    case _ => Act(Help, [])
  }

  lemma TrimGoAll()
    ensures Trim(" Go all\n", " \t\n") == "Go all"
  {
    var t := " Go all\n";
    assert TrimLeft(t, " \t\n") == "Go all\n" by { assert t[1..] == "Go all\n"; }
    assert TrimRight("Go all\n", " \t\n") == "Go all" by { assert "Go all\n"[..6] == "Go all"; }
  }

  lemma SplitGoAll()
    ensures Split("go all", ' ') == ["go", "all"]
  {
    assert "go all" == "go" + [' '] + "all";
    SplitField("go", ' ', "all");
    SplitFree("all", ' ');
  }

  /** The line ` Go all\n` is the words `go` and `all`. */
  lemma WordsGoAll()
    ensures Words(" Go all\n") == ["go", "all"]
  {
    TrimGoAll();
    assert ToLower("Go all") == "go all";
    SplitGoAll();
  }

  /** The line is trimmed and lower-cased before the switch: ` Go all\n` starts every configured svn once. */
  lemma ClassifyGo(config: Config, atoi: string -> Option<int>)
    ensures Classify(config, " Go all\n", atoi) == Act(Execute, Selection(["all"], config.svns, atoi))
  {
    WordsGoAll();
    assert ["go", "all"][1..] == ["all"];
  }
}
