/**
 * The player registry of Go/src/Programmierwettbewerb-Server/organisation/organisation.go:
 * merging the lines of a repository's `bot.names` into its nickname list
 * (`updateJsonFile`) and the nickname lookup with its refresh condition
 * (`CheckPotentialPlayer`).  Files, `svn` and the JSON encoding are not
 * modelled: the lines read and the decoded data are parameters, and so is
 * the clock, in minutes.
 */
module Organisation {
  import opened Wrappers

  /** `PlayerData`. */
  datatype PlayerData = PlayerData(nicknames: seq<string>, score: int)

  /** The zero `PlayerData` a lookup of a missing repository yields. */
  const NoPlayer: PlayerData := PlayerData([], 0)

  /** The nickname list after the merge loop over `lines`: a line not yet present is appended. */
  function Merged(nicknames: seq<string>, lines: seq<string>): seq<string>
    decreases |lines|
  {
    if |lines| == 0 then nicknames
    else
      var acc := Merged(nicknames, lines[..|lines| - 1]);
      var line := lines[|lines| - 1];
      if line in acc then acc else acc + [line]
  }

  /** The merge loop of `updateJsonFile`: an inner scan for each line, then an append if it was not found. */
  method MergeNicknames(nicknames: seq<string>, lines: seq<string>) returns (r: seq<string>)
    ensures r == Merged(nicknames, lines)
  {
    r := nicknames;
    for i := 0 to |lines|
      invariant r == Merged(nicknames, lines[..i])
    {
      var newNick := lines[i];
      assert lines[..i + 1][..i] == lines[..i];
      var found := false;
      for j := 0 to |r|
        invariant found <==> newNick in r[..j]
      {
        if r[j] == newNick {
          found := true;
        }
        assert r[..j + 1] == r[..j] + [r[j]];
      }
      assert r[..|r|] == r;
      if !found {
        r := r + [newNick];
      }
    }
    assert lines[..|lines|] == lines;
  }

  /**
   * The merge keeps the existing list as a prefix, contains every line,
   * and adds nothing but lines.
   */
  lemma {:induction false} MergedContains(nicknames: seq<string>, lines: seq<string>)
    ensures var r := Merged(nicknames, lines);
      && |nicknames| <= |r| <= |nicknames| + |lines|
      && r[..|nicknames|] == nicknames
      && (forall line :: line in lines ==> line in r)
      && (forall i :: |nicknames| <= i < |r| ==> r[i] in lines)
    decreases |lines|
  {
    if |lines| > 0 {
      var init := lines[..|lines| - 1];
      MergedContains(nicknames, init);
      var acc := Merged(nicknames, init);
      assert lines == init + [lines[|lines| - 1]];
      if lines[|lines| - 1] !in acc {
        assert (acc + [lines[|lines| - 1]])[..|nicknames|] == acc[..|nicknames|];
      }
    }
  }

  /** No name occurs twice. */
  predicate Distinct(names: seq<string>) {
    forall i, j :: 0 <= i < j < |names| ==> names[i] != names[j]
  }

  /** No duplicates: merging into a duplicate-free list gives a duplicate-free list. */
  lemma {:induction false} MergedDistinct(nicknames: seq<string>, lines: seq<string>)
    requires Distinct(nicknames)
    ensures Distinct(Merged(nicknames, lines))
    decreases |lines|
  {
    if |lines| > 0 {
      var init := lines[..|lines| - 1];
      MergedDistinct(nicknames, init);
      var acc := Merged(nicknames, init);
      var line := lines[|lines| - 1];
      if line !in acc {
        var r := acc + [line];
        forall i, j | 0 <= i < j < |r|
          ensures r[i] != r[j]
        {
          assert r[i] == acc[i];
          if j == |acc| {
            assert acc[i] in acc;
          } else {
            assert r[j] == acc[j];
          }
        }
      }
    }
  }

  /**
   * The appended lines come in file order: the tail of the merged list is
   * the lines that were new, each at its first occurrence.
   */
  function NewNames(nicknames: seq<string>, lines: seq<string>): seq<string>
    decreases |lines|
  {
    if |lines| == 0 then []
    else
      var init := lines[..|lines| - 1];
      var line := lines[|lines| - 1];
      NewNames(nicknames, init) + (if line in nicknames || line in init then [] else [line])
  }

  /** The merged list is the old list followed by the new lines, in the order of their first occurrence. */
  lemma {:induction false} MergedAppends(nicknames: seq<string>, lines: seq<string>)
    ensures Merged(nicknames, lines) == nicknames + NewNames(nicknames, lines)
    decreases |lines|
  {
    if |lines| > 0 {
      var init := lines[..|lines| - 1];
      var line := lines[|lines| - 1];
      MergedAppends(nicknames, init);
      var acc := Merged(nicknames, init);
      MergedMembers(nicknames, init);
      assert line in acc <==> line in nicknames || line in init;
    }
  }

  /** A name is in the merged list iff it was in the list or among the lines. */
  lemma {:induction false} MergedMembers(nicknames: seq<string>, lines: seq<string>)
    ensures forall name :: name in Merged(nicknames, lines) <==> name in nicknames || name in lines
    decreases |lines|
  {
    if |lines| > 0 {
      var init := lines[..|lines| - 1];
      MergedMembers(nicknames, init);
      assert lines == init + [lines[|lines| - 1]];
    }
  }

  /**
   * The update of one repository in `updateJsonFile`: its entry (the zero
   * value when it has none) gets the merged nicknames, every other entry is
   * kept.
   */
  method UpdateRepository(data: map<string, PlayerData>, repos: string, lines: seq<string>)
    returns (r: map<string, PlayerData>)
    ensures repos in r && r[repos].nicknames == Merged(if repos in data then data[repos].nicknames else [], lines)
    ensures r[repos].score == (if repos in data then data[repos].score else 0)
    ensures r.Keys == data.Keys + {repos}
    ensures forall other :: other in data && other != repos ==> r[other] == data[other]
  {
    var reposData := if repos in data then data[repos] else NoPlayer;
    var nicknames := MergeNicknames(reposData.nicknames, lines);
    reposData := reposData.(nicknames := nicknames);
    r := data[repos := reposData];
  }

  /** Some repository lists the nickname exactly. */
  predicate Known(data: map<string, PlayerData>, nickname: string) {
    exists repos :: repos in data && nickname in data[repos].nicknames
  }

  /** The registry: the time of the last refresh and the player data loaded then. */
  class Registry {
    var lastUpdate: real
    var playerData: map<string, PlayerData>

    /** The registry starts with no data and a last update long before `start`, so the first lookup refreshes. */
    constructor(start: real)
      ensures playerData == map[] && lastUpdate < start - 1.0
    {
      lastUpdate := start - 2.0;
      playerData := map[];
    }

    /**
     * `CheckPotentialPlayer` at time `now`: when more than one minute has
     * passed, the data are refreshed (`loaded` is what the stats file
     * decodes to, `None` when it cannot be read; decoding into the existing
     * map keeps the entries the file does not mention) and the time is
     * recorded; then the answer is whether some repository lists the name.
     */
    method CheckPotentialPlayer(nickname: string, now: real, loaded: Option<map<string, PlayerData>>)
      returns (found: bool)
      modifies this
      ensures now - old(lastUpdate) > 1.0 ==>
        lastUpdate == now && playerData == (if loaded.Some? then old(playerData) + loaded.value else old(playerData))
      ensures now - old(lastUpdate) <= 1.0 ==> lastUpdate == old(lastUpdate) && playerData == old(playerData)
      ensures found <==> Known(playerData, nickname)
    {
      if now - lastUpdate > 1.0 {
        if loaded.Some? {
          playerData := playerData + loaded.value;
        }
        lastUpdate := now;
      }
      var repos := playerData.Keys;
      while repos != {}
        invariant repos <= playerData.Keys
        invariant forall r :: r in playerData && r !in repos ==> nickname !in playerData[r].nicknames
        decreases repos
      {
        var svn :| svn in repos;
        var nicks := playerData[svn].nicknames;
        for j := 0 to |nicks|
          invariant nickname !in nicks[..j]
        {
          if nicks[j] == nickname {
            return true;
          }
          assert nicks[..j + 1] == nicks[..j] + [nicks[j]];
        }
        assert nicks[..|nicks|] == nicks;
        repos := repos - {svn};
      }
      found := false;
    }
  }
}
