/**
 * Go/src/Programmierwettbewerb-Middleware/middleware.go: the encoder that
 * turns the server's game state into the line a bot reads, and the
 * tolerant parser of the bot's reply.  The number formatting and parsing
 * of Go's `strconv` and `fmt` are parameters.
 */
module Middleware {
  import opened Wrappers
  import opened GoShared

  /*
   * Strings
   */

  /**
   * `firstN`: the prefix of length `min(n, len(str) - 1)`.  A negative
   * bound, which an empty string always gives, makes the slice panic:
   * `None`.
   */
  function FirstN(str: string, n: int): (r: Option<string>)
  {
    var m := Min(n, |str| - 1);
    if m < 0 then None else Some(str[..m])
  }

  /** `abbreviate`. */
  function Abbreviate(str: string, n: int): (r: Option<string>)
  {
    match FirstN(str, n)
    case None => None
    case Some(p) => Some(p + "...")
  }

  /**
   * `firstN` panics exactly on an empty string or a negative `n`;
   * otherwise it returns a proper prefix, which drops the last character
   * whenever `n` reaches the length.
   */
  lemma FirstNShape(str: string, n: int)
    ensures FirstN(str, n).Some? <==> |str| > 0 && n >= 0
    ensures FirstN(str, n).Some? ==>
      var p := FirstN(str, n).value;
      && |p| == Min(n, |str| - 1) && p == str[..|p|] && |p| < |str|
      && (n >= |str| ==> p == str[..|str| - 1])
    ensures Abbreviate(str, n).Some? <==> FirstN(str, n).Some?
    ensures Abbreviate(str, n).Some? ==> Abbreviate(str, n).value == FirstN(str, n).value + "..."
  {
  }

  /*
   * The game state a bot reads
   */

  /** `ServerMiddlewareBlob`: identifiers and mass are `uint32`. */
  datatype ServerMiddlewareBlob = ServerMiddlewareBlob(botId: nat, teamId: nat, index: nat, position: Vec2, mass: nat)

  /** The fields of `Food` and `Toxin` the encoder reads. */
  datatype Food = Food(position: Vec2, mass: real)
  datatype Toxin = Toxin(position: Vec2, mass: real)

  datatype ServerMiddlewareGameState = ServerMiddlewareGameState(
    myBlob: seq<ServerMiddlewareBlob>, otherBlobs: seq<ServerMiddlewareBlob>,
    food: seq<Food>, toxin: seq<Toxin>)

  /**
   * The number formatting of the encoder: `fToS` (`FormatFloat` with six
   * decimals), `fmt.Sprint` of a `uint32` and of a `float32`.
   */
  datatype Formatters = Formatters(fToS: real -> string, sprintUint: nat -> string, sprintFloat: real -> string)

  /** `"(" + fToS(x) + "," + fToS(y) + ")"`. */
  function PositionText(fm: Formatters, p: Vec2): string {
    "(" + fm.fToS(p.x) + "," + fm.fToS(p.y) + ")"
  }

  /** One blob: `(botId,teamId,index,(x,y),mass)`. */
  function BlobText(fm: Formatters, b: ServerMiddlewareBlob): string {
    "(" + fm.sprintUint(b.botId) + "," + fm.sprintUint(b.teamId) + "," + fm.sprintUint(b.index) + ","
      + PositionText(fm, b.position) + "," + fm.sprintUint(b.mass) + ")"
  }

  /** One food: its position and the literal mass `10`, whatever the food's mass. */
  function FoodText(fm: Formatters, f: Food): string {
    "(" + PositionText(fm, f.position) + "," + "10)"
  }

  /** One toxin: `((x,y),mass)`. */
  function ToxinText(fm: Formatters, t: Toxin): string {
    "((" + fm.fToS(t.position.x) + "," + fm.fToS(t.position.y) + ")," + fm.sprintFloat(t.mass) + ")"
  }

  /** The texts `items`, separated by single commas. */
  function Join(items: seq<string>): string {
    if |items| == 0 then "" else if |items| == 1 then items[0] else items[0] + "," + Join(items[1..])
  }

  /** `[`, the elements separated by commas, `]`. */
  function Bracketed(items: seq<string>): string {
    "[" + Join(items) + "]"
  }

  function BlobTexts(fm: Formatters, blobs: seq<ServerMiddlewareBlob>): (r: seq<string>)
    ensures |r| == |blobs| && forall i :: 0 <= i < |blobs| ==> r[i] == BlobText(fm, blobs[i])
  {
    seq(|blobs|, i requires 0 <= i < |blobs| => BlobText(fm, blobs[i]))
  }

  function FoodTexts(fm: Formatters, food: seq<Food>): (r: seq<string>)
    ensures |r| == |food| && forall i :: 0 <= i < |food| ==> r[i] == FoodText(fm, food[i])
  {
    seq(|food|, i requires 0 <= i < |food| => FoodText(fm, food[i]))
  }

  function ToxinTexts(fm: Formatters, toxins: seq<Toxin>): (r: seq<string>)
    ensures |r| == |toxins| && forall i :: 0 <= i < |toxins| ==> r[i] == ToxinText(fm, toxins[i])
  {
    seq(|toxins|, i requires 0 <= i < |toxins| => ToxinText(fm, toxins[i]))
  }

  /** Joining one more element after a non-empty prefix adds a comma and the element. */
  lemma {:induction false} JoinSnoc(items: seq<string>, x: string)
    ensures Join(items + [x]) == if |items| == 0 then x else Join(items) + "," + x
    decreases |items|
  {
    if |items| >= 2 {
      assert (items + [x])[1..] == items[1..] + [x];
      JoinSnoc(items[1..], x);
    } else if |items| == 1 {
      assert (items + [x])[1..] == [x];
    }
  }

  /**
   * The loop shared by `blobsToString`, `foodToString` and
   * `toxinToString`: open with `[`, write a comma before every element
   * but the first, close with `]`.
   */
  method ListToString(items: seq<string>) returns (s: string)
    ensures s == Bracketed(items)
  {
    s := "[";
    var first := true;
    var i := 0;
    while i < |items|
      invariant 0 <= i <= |items|
      invariant first <==> i == 0
      invariant s == "[" + Join(items[..i])
    {
      JoinSnoc(items[..i], items[i]);
      assert items[..i + 1] == items[..i] + [items[i]];
      if !first {
        s := s + ",";
      }
      s := s + items[i];
      first := false;
      i := i + 1;
    }
    assert items[..i] == items;
    s := s + "]";
  }

  /** `blobsToString`. */
  method BlobsToString(fm: Formatters, blobs: seq<ServerMiddlewareBlob>) returns (s: string)
    ensures s == Bracketed(BlobTexts(fm, blobs))
  {
    s := ListToString(BlobTexts(fm, blobs));
  }

  /** `foodToString`. */
  method FoodToString(fm: Formatters, food: seq<Food>) returns (s: string)
    ensures s == Bracketed(FoodTexts(fm, food))
  {
    s := ListToString(FoodTexts(fm, food));
  }

  /** `toxinToString`. */
  method ToxinToString(fm: Formatters, toxins: seq<Toxin>) returns (s: string)
    ensures s == Bracketed(ToxinTexts(fm, toxins))
  {
    s := ListToString(ToxinTexts(fm, toxins));
  }

  /** `jsonToString`: `(own,other,food,toxin)` with no blank anywhere. */
  function JsonToString(fm: Formatters, msg: ServerMiddlewareGameState): string {
    "(" + Bracketed(BlobTexts(fm, msg.myBlob)) + "," + Bracketed(BlobTexts(fm, msg.otherBlobs)) + ","
      + Bracketed(FoodTexts(fm, msg.food)) + "," + Bracketed(ToxinTexts(fm, msg.toxin)) + ")"
  }

  /** No element text holds a comma, so joined texts split back into the elements. */
  predicate CommaFree(s: string) {
    ',' !in s
  }

  /*
   * The bot's reply
   */

  /** `w` occurs in `s` (the unanchored match of one alternative of a regular expression). */
  predicate Contains(s: string, w: string)
    decreases |s|
  {
    |w| <= |s| && (s[..|w|] == w || Contains(s[1..], w))
  }

  /** `w` occurs in `s` at position `i`. */
  predicate OccursAt(s: string, w: string, i: int) {
    0 <= i <= |s| - |w| && s[i..i + |w|] == w
  }

  /** `Contains` is the existence of a position where `w` occurs. */
  lemma {:induction false} ContainsAt(s: string, w: string)
    ensures Contains(s, w) <==> exists i :: OccursAt(s, w, i)
    decreases |s|
  {
    if |w| <= |s| {
      if s[..|w|] != w {
        ContainsAt(s[1..], w);
        if Contains(s[1..], w) {
          var i :| OccursAt(s[1..], w, i);
          assert s[i + 1..i + 1 + |w|] == s[1..][i..i + |w|];
          assert OccursAt(s, w, i + 1);
        } else {
          forall i | OccursAt(s, w, i)
            ensures 1 <= i && OccursAt(s[1..], w, i - 1)
          {
            assert i != 0 by { assert s[0..|w|] == s[..|w|]; }
            assert s[i..i + |w|] == s[1..][i - 1..i - 1 + |w|];
          }
        }
      } else {
        assert OccursAt(s, w, 0);
      }
    } else {
      forall i | OccursAt(s, w, i)
        ensures false
      {
      }
    }
  }

  /**
   * `matchCommand`: the action comes from an exact comparison, the match
   * flag from the regular expression `none|split|throw`, which matches
   * anywhere in the string.
   */
  function MatchCommand(cmd: string): (r: (BotActionType, bool))
  {
    var matched := Contains(cmd, "none") || Contains(cmd, "split") || Contains(cmd, "throw");
    var action := if cmd == "split" then BatSplit else if cmd == "throw" then BatThrow else BatNone;
    (action, matched)
  }

  /**
   * The action is `BatSplit` exactly for `split` and `BatThrow` exactly for
   * `throw`; both are matches, and a string that matches none of the
   * three words gives `BatNone`.
   */
  lemma MatchCommandCases(cmd: string)
    ensures MatchCommand(cmd).0 == BatSplit <==> cmd == "split"
    ensures MatchCommand(cmd).0 == BatThrow <==> cmd == "throw"
    ensures MatchCommand(cmd).0 != BatNone ==> MatchCommand(cmd).1
    ensures MatchCommand("none") == (BatNone, true)
    ensures MatchCommand("split") == (BatSplit, true) && MatchCommand("throw") == (BatThrow, true)
  {
    assert "none"[..4] == "none" && "split"[..5] == "split" && "throw"[..5] == "throw";
  }

  /** The zero `vec.Vec2`, as `NullVec2` returns it. */
  const NullVec2: Vec2 := Vec2(0.0, 0.0)

  /**
   * `matchTarget`: both fields must parse as floats (`ParseFloat` with
   * 32 bits, then the conversion to `float32`, is the parameter).
   */
  function MatchTarget(slice: seq<string>, parseFloat: string -> Option<real>): (r: (Vec2, bool))
    requires |slice| >= 2
    ensures r.1 <==> parseFloat(slice[0]).Some? && parseFloat(slice[1]).Some?
    ensures r.1 ==> r.0 == Vec2(parseFloat(slice[0]).value, parseFloat(slice[1]).value)
    ensures !r.1 ==> r.0 == NullVec2
  {
    var x := parseFloat(slice[0]);
    var y := parseFloat(slice[1]);
    if x.None? || y.None? then (NullVec2, false) else (Vec2(x.value, y.value), true)
  }

  /**
   * `matchSlice`: two fields are a target with action `None`; three are
   * an action and a target, where an unrecognised action falls back to
   * `None`; any other number fails.  On failure the target stays zero.
   */
  function MatchSlice(slice: seq<string>, parseFloat: string -> Option<real>): (r: (BotActionType, Vec2, bool))
  {
    if |slice| == 2 then
      var t := MatchTarget(slice, parseFloat);
      (BatNone, if t.1 then t.0 else NullVec2, t.1)
    else if |slice| == 3 then
      var m := MatchCommand(slice[0]);
      var action := if m.1 then m.0 else BatNone;
      var t := MatchTarget(slice[1..], parseFloat);
      (action, if t.1 then t.0 else NullVec2, t.1)
    else (BatNone, NullVec2, false)
  }

  lemma MatchSliceCases(slice: seq<string>, parseFloat: string -> Option<real>)
    ensures var r := MatchSlice(slice, parseFloat);
      && (|slice| != 2 && |slice| != 3 ==> r == (BatNone, NullVec2, false))
      && (|slice| == 2 ==> r.0 == BatNone)
      && (|slice| == 3 ==> r.0 == MatchCommand(slice[0]).0)
      && (r.2 <==> (|slice| == 2 || |slice| == 3)
                   && parseFloat(slice[|slice| - 2]).Some? && parseFloat(slice[|slice| - 1]).Some?)
      && (r.2 ==> r.1 == Vec2(parseFloat(slice[|slice| - 2]).value, parseFloat(slice[|slice| - 1]).value))
      && (!r.2 ==> r.1 == NullVec2)
  {
    if |slice| == 3 {
      MatchCommandCases(slice[0]);
    }
  }

  /** `strings.ToLower` on ASCII letters. */
  function Lower(c: char): char {
    if 'A' <= c <= 'Z' then (c as int + 32) as char else c
  }

  function ToLower(s: string): (r: string)
    ensures |r| == |s| && forall i :: 0 <= i < |s| ==> r[i] == Lower(s[i])
  {
    seq(|s|, i requires 0 <= i < |s| => Lower(s[i]))
  }

  /** The characters `parseBotResponse` deletes. */
  predicate Deleted(c: char) {
    c in " \n\r\t()[]{}"
  }

  /** The chain of `strings.Replace` calls that delete each of those characters. */
  function Strip(s: string): (r: string)
    ensures |r| <= |s|
    ensures forall i :: 0 <= i < |r| ==> !Deleted(r[i])
  {
    if |s| == 0 then "" else if Deleted(s[0]) then Strip(s[1..]) else [s[0]] + Strip(s[1..])
  }

  /** `strings.Split(s, sep)` for a one-character separator: an empty string gives one empty field. */
  function Split(s: string, sep: char): (r: seq<string>)
    ensures |r| >= 1
    ensures forall i :: 0 <= i < |r| ==> sep !in r[i]
  {
    if |s| == 0 then [""]
    else
      var rest := Split(s[1..], sep);
      if s[0] == sep then [""] + rest else [[s[0]] + rest[0]] + rest[1..]
  }

  /** Splitting then joining with commas gives the string back. */
  lemma {:induction false} JoinSplit(s: string)
    ensures Join(Split(s, ',')) == s
    decreases |s|
  {
    if |s| > 0 {
      JoinSplit(s[1..]);
      var rest := Split(s[1..], ',');
      if s[0] == ',' {
        assert ([""] + rest)[1..] == rest;
      } else {
        var r := [[s[0]] + rest[0]] + rest[1..];
        if |rest| > 1 {
          assert r[1..] == rest[1..];
          assert Join(rest) == rest[0] + "," + Join(rest[1..]);
        }
      }
    }
  }

  /** Joining comma-free fields and splitting again gives the fields back. */
  lemma {:induction false} SplitJoin(items: seq<string>)
    requires |items| >= 1 && forall i :: 0 <= i < |items| ==> CommaFree(items[i])
    ensures Split(Join(items), ',') == items
    decreases |items|
  {
    if |items| == 1 {
      SplitFree(items[0], ',');
    } else {
      SplitJoin(items[1..]);
      SplitField(items[0], ',', Join(items[1..]));
      assert items == [items[0]] + items[1..];
    }
  }

  /** A string without the separator is one field. */
  lemma {:induction false} SplitFree(s: string, sep: char)
    requires sep !in s
    ensures Split(s, sep) == [s]
    decreases |s|
  {
    if |s| > 0 {
      SplitFree(s[1..], sep);
      assert [s[0]] + s[1..] == s;
    }
  }

  /** A field without the separator, the separator and the rest: the field, then the fields of the rest. */
  lemma {:induction false} SplitField(a: string, sep: char, rest: string)
    requires sep !in a
    ensures Split(a + [sep] + rest, sep) == [a] + Split(rest, sep)
    decreases |a|
  {
    if |a| == 0 {
      assert a + [sep] + rest == [sep] + rest;
      assert (a + [sep] + rest)[1..] == rest;
    } else {
      assert (a + [sep] + rest)[1..] == a[1..] + [sep] + rest;
      SplitField(a[1..], sep, rest);
      assert [a[0]] + a[1..] == a;
    }
  }

  /** `Strip` works character by character. */
  lemma {:induction false} StripAppend(a: string, b: string)
    ensures Strip(a + b) == Strip(a) + Strip(b)
    decreases |a|
  {
    if |a| > 0 {
      assert (a + b)[1..] == a[1..] + b;
      StripAppend(a[1..], b);
    } else {
      assert a + b == b;
    }
  }

  /** `ToLower` works character by character. */
  lemma ToLowerAppend(a: string, b: string)
    ensures ToLower(a + b) == ToLower(a) + ToLower(b)
  {
    assert forall i :: 0 <= i < |a + b| ==> ToLower(a + b)[i] == (ToLower(a) + ToLower(b))[i];
  }

  /** The chain of `strings.ToLower` and `strings.Replace` calls in `parseBotResponse`. */
  function Clean(response: string): string {
    Strip(ToLower(response))
  }

  /** Cleaning works piece by piece. */
  lemma CleanAppend(a: string, b: string)
    ensures Clean(a + b) == Clean(a) + Clean(b)
  {
    ToLowerAppend(a, b);
    StripAppend(ToLower(a), ToLower(b));
  }

  /** `parseBotResponse`: lower-case, delete blanks and brackets, split on commas, then `matchSlice`. */
  function ParseBotResponse(response: string, parseFloat: string -> Option<real>): (r: (BotCommand, bool))
  {
    var fields := Split(Clean(response), ',');
    var m := MatchSlice(fields, parseFloat);
    (BotCommand(m.0, m.1), m.2)
  }
}
