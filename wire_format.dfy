/**
 * The line the middleware writes (Go/src/Programmierwettbewerb-Middleware/
 * middleware.go, `jsonToString`) read by the bot library's parser
 * (BotCpp/BotCpp/pwb.h, `parseAll`): the encoder's output is a sentence of
 * the reference grammar `PwbGrammar`, and the parser recovers the four
 * lists element by element.  The number texts are opaque on both sides;
 * `ReadsBack` states what is assumed of them: each is read back by the
 * matching `sscanf` conversion, consuming exactly its own characters,
 * whenever a comma or a closing parenthesis follows it.
 */
module WireFormat {
  import opened Wrappers
  import opened PwbData
  import opened PwbGrammar
  import M = Middleware
  import Go = GoShared
  import Spec = PwbSpec

  /*
   * What the number texts are assumed to read back as
   */

  /** `t` starts with `s`, and a comma or a closing parenthesis follows. */
  predicate Followed(t: string, s: string) {
    |s| < |t| && t[..|s|] == s && (t[|s|] == ',' || t[|s|] == ')')
  }

  /** A number text is not empty and does not start with a blank. */
  predicate Lead(s: string) {
    |s| > 0 && !IsBlank(s[0])
  }

  /** `%i` reads the text `s` as `n`. */
  ghost predicate ReadsInt(sc: Scanners, s: string, n: int) {
    var ok := Lead(s) && forall t {:trigger Followed(t, s)} :: Followed(t, s) ==> sc.scanInt(t) == Some((n, |s|));
    ok
  }

  /** `%f` reads the text `s` as `x`. */
  ghost predicate ReadsFloat(sc: Scanners, s: string, x: real) {
    var ok := Lead(s) && forall t {:trigger Followed(t, s)} :: Followed(t, s) ==> sc.scanFloat(t) == Some((x, |s|));
    ok
  }

  /**
   * The value `%f` gives for a coordinate written by `fToS` (six
   * decimals) and for a toxin's mass written by `fmt.Sprint`.
   */
  datatype Readback = Readback(coord: real -> real, mass: real -> real)

  /**
   * The middleware's number texts read back in the bot: a `uint32` as
   * itself by `%i` and by `%f`, coordinates and toxin masses as `rb`
   * says, and the food mass literal `10` as 10.
   */
  ghost predicate ReadsBack(fm: M.Formatters, sc: Scanners, rb: Readback) {
    && (forall n: nat :: ReadsInt(sc, fm.sprintUint(n), n) && ReadsFloat(sc, fm.sprintUint(n), n as real))
    && (forall x: real :: ReadsFloat(sc, fm.fToS(x), rb.coord(x)))
    && (forall m: real :: ReadsFloat(sc, fm.sprintFloat(m), rb.mass(m)))
    && ReadsFloat(sc, "10", 10.0)
  }

  /*
   * What the bot receives
   */

  function Position(rb: Readback, p: Go.Vec2): Vec2 {
    Vec2(rb.coord(p.x), rb.coord(p.y))
  }

  /** A blob as the bot reads it: the three identifiers, the position, and the `uint32` mass as a float. */
  function BlobRead(rb: Readback, b: M.ServerMiddlewareBlob): Blob {
    Blob(b.botId, b.teamId, b.index, Position(rb, b.position), b.mass as real)
  }

  /** A food as the bot reads it: its mass is always 10. */
  function FoodRead(rb: Readback, f: M.Food): FoodOrToxin {
    FoodOrToxin(Position(rb, f.position), 10.0)
  }

  function ToxinRead(rb: Readback, t: M.Toxin): FoodOrToxin {
    FoodOrToxin(Position(rb, t.position), rb.mass(t.mass))
  }

  function BlobsRead(rb: Readback, blobs: seq<M.ServerMiddlewareBlob>): (r: seq<Blob>)
    ensures |r| == |blobs| && forall i :: 0 <= i < |blobs| ==> r[i] == BlobRead(rb, blobs[i])
  {
    seq(|blobs|, i requires 0 <= i < |blobs| => BlobRead(rb, blobs[i]))
  }

  function FoodsRead(rb: Readback, food: seq<M.Food>): (r: seq<FoodOrToxin>)
    ensures |r| == |food| && forall i :: 0 <= i < |food| ==> r[i] == FoodRead(rb, food[i])
  {
    seq(|food|, i requires 0 <= i < |food| => FoodRead(rb, food[i]))
  }

  function ToxinsRead(rb: Readback, toxins: seq<M.Toxin>): (r: seq<FoodOrToxin>)
    ensures |r| == |toxins| && forall i :: 0 <= i < |toxins| ==> r[i] == ToxinRead(rb, toxins[i])
  {
    seq(|toxins|, i requires 0 <= i < |toxins| => ToxinRead(rb, toxins[i]))
  }

  /** The four lists the bot receives for the game state `msg`. */
  function Received(rb: Readback, msg: M.ServerMiddlewareGameState): Snapshot {
    Snapshot(BlobsRead(rb, msg.myBlob), BlobsRead(rb, msg.otherBlobs), FoodsRead(rb, msg.food), ToxinsRead(rb, msg.toxin))
  }

  /*
   * Reading a text piece by piece
   */

  /** The text `s` stands in `t` from index `i`. */
  predicate At(t: string, i: nat, s: string) {
    var ok := i + |s| <= |t| && forall k {:trigger s[k]} :: 0 <= k < |s| ==> t[i + k] == s[k];
    ok
  }

  /** A text that stands at `i` is its two parts, the second one standing at `j`. */
  lemma AtSplit(t: string, i: nat, a: string, b: string, j: nat)
    requires At(t, i, a + b) && j == i + |a|
    ensures At(t, i, a) && At(t, j, b)
  {
    forall k | 0 <= k < |a|
      ensures t[i + k] == a[k]
    {
      assert (a + b)[k] == a[k];
    }
    forall k | 0 <= k < |b|
      ensures t[j + k] == b[k]
    {
      assert (a + b)[|a| + k] == b[k];
    }
  }

  /** The characters of a text that stands at `p`. */
  lemma AtSlice(t: string, p: nat, s: string)
    requires At(t, p, s)
    ensures p + |s| <= |t| && t[p..][..|s|] == s
  {
    forall k | 0 <= k < |s|
      ensures t[p..][..|s|][k] == s[k]
    {
      assert t[p + k] == s[k];
    }
  }

  /** At a character that is not a blank, `parseWhiteSpaces` skips nothing. */
  lemma NoSkip(t: string, p: nat)
    requires p < |t| && !IsBlank(t[p])
    ensures Skip(t, p) == p
  {
  }

  lemma FirstChar(t: string, p: nat, s: string)
    requires At(t, p, s) && |s| > 0
    ensures p < |t| && t[p] == s[0]
  {
    assert t[p + 0] == s[0];
  }

  /** A bracket or comma of the text is the character the grammar expects there. */
  lemma SymbolLit(t: string, p: nat, c: char)
    requires At(t, p, [c]) && !IsBlank(c)
    ensures Lit(t, p, c) == Parsed((), p + 1)
  {
    FirstChar(t, p, [c]);
    NoSkip(t, p);
  }

  /** The same, as a field of a record. */
  lemma SymbolField(sc: Scanners, t: string, p: nat, c: char)
    requires ScannersOk(sc) && At(t, p, [c]) && !IsBlank(c)
    ensures Lit(t, p, c) == Parsed((), p + 1)
    ensures FieldAt(sc, t, p, Char(c)) == Parsed(Mark, p + 1)
  {
    SymbolLit(t, p, c);
  }

  /** The grammar's literal `c` is not found where another non-blank character stands. */
  lemma OtherSymbol(t: string, p: nat, c: char)
    requires p < |t| && !IsBlank(t[p]) && t[p] != c
    ensures Lit(t, p, c) == NoParse
  {
    NoSkip(t, p);
  }

  lemma IntField(sc: Scanners, t: string, p: nat, s: string, n: int)
    requires ScannersOk(sc) && ReadsInt(sc, s, n) && At(t, p, s)
    requires p + |s| < |t| && (t[p + |s|] == ',' || t[p + |s|] == ')')
    ensures FieldAt(sc, t, p, Int) == Parsed(IntValue(n), p + |s|)
  {
    FirstChar(t, p, s);
    NoSkip(t, p);
    AtSlice(t, p, s);
    var u := t[p..];
    assert u[|s|] == t[p + |s|];
    assert Followed(u, s);
  }

  lemma FloatField(sc: Scanners, t: string, p: nat, s: string, x: real)
    requires ScannersOk(sc) && ReadsFloat(sc, s, x) && At(t, p, s)
    requires p + |s| < |t| && (t[p + |s|] == ',' || t[p + |s|] == ')')
    ensures FieldAt(sc, t, p, Float) == Parsed(FloatValue(x), p + |s|)
  {
    FirstChar(t, p, s);
    NoSkip(t, p);
    AtSlice(t, p, s);
    var u := t[p..];
    assert u[|s|] == t[p + |s|];
    assert Followed(u, s);
  }

  /** A number text followed by a comma or a closing parenthesis is read as its number. */
  lemma IntThen(sc: Scanners, t: string, p: nat, s: string, n: int, c: char)
    requires ScannersOk(sc) && ReadsInt(sc, s, n) && At(t, p, s) && At(t, p + |s|, [c]) && (c == ',' || c == ')')
    ensures FieldAt(sc, t, p, Int) == Parsed(IntValue(n), p + |s|)
  {
    FirstChar(t, p + |s|, [c]);
    IntField(sc, t, p, s, n);
  }

  lemma FloatThen(sc: Scanners, t: string, p: nat, s: string, x: real, c: char)
    requires ScannersOk(sc) && ReadsFloat(sc, s, x) && At(t, p, s) && At(t, p + |s|, [c]) && (c == ',' || c == ')')
    ensures FieldAt(sc, t, p, Float) == Parsed(FloatValue(x), p + |s|)
  {
    FirstChar(t, p + |s|, [c]);
    FloatField(sc, t, p, s, x);
  }

  /** Field `k` of a record followed by the fields after it. */
  lemma FieldsStep(sc: Scanners, t: string, p: nat, rec: Record, k: nat,
                   v: Value, e: nat, rest: seq<Value>, end: nat)
    requires ScannersOk(sc) && p <= |t| && k < |Layout(rec)|
    requires FieldAt(sc, t, p, Layout(rec)[k].kind) == Parsed(v, e)
    requires e <= |t| && FieldsAt(sc, t, e, Layout(rec), Level(rec), k + 1) == Parsed(rest, end)
    ensures FieldsAt(sc, t, p, Layout(rec), Level(rec), k) == Parsed([v] + rest, end)
  {
  }

  /** Fields `k` to `j` of a record stand at `pos` with values `vals`, each read where the previous one ended. */
  ghost predicate Chain(sc: Scanners, t: string, rec: Record, k: nat, j: nat, pos: seq<nat>, vals: seq<Value>)
    requires ScannersOk(sc) && |vals| == |Layout(rec)| && |pos| == |vals| + 1 && k <= j <= |vals|
    decreases j - k
  {
    && pos[k] <= |t|
    && (k < j ==>
          && FieldAt(sc, t, pos[k], Layout(rec)[k].kind) == Parsed(vals[k], pos[k + 1])
          && Chain(sc, t, rec, k + 1, j, pos, vals))
  }

  /** Fields `k` to `j` in front of the rest of a record. */
  lemma {:induction false} FieldsChain(sc: Scanners, t: string, rec: Record, k: nat, j: nat, pos: seq<nat>, vals: seq<Value>)
    requires ScannersOk(sc) && |vals| == |Layout(rec)| && |pos| == |vals| + 1 && k <= j <= |vals|
    requires Chain(sc, t, rec, k, j, pos, vals)
    requires Chain(sc, t, rec, j, j, pos, vals) && FieldsAt(sc, t, pos[j], Layout(rec), Level(rec), j) == Parsed(vals[j..], pos[|vals|])
    ensures FieldsAt(sc, t, pos[k], Layout(rec), Level(rec), k) == Parsed(vals[k..], pos[|vals|])
    decreases j - k
  {
    if k < j {
      FieldsChain(sc, t, rec, k + 1, j, pos, vals);
      FieldsStep(sc, t, pos[k], rec, k, vals[k], pos[k + 1], vals[k + 1..], pos[|vals|]);
      ConsSlice(vals, k);
    }
  }

  /** A sequence from index `k` is its element `k` in front of the rest. */
  lemma ConsSlice<T>(s: seq<T>, k: nat)
    requires k < |s|
    ensures [s[k]] + s[k + 1..] == s[k..]
  {
  }

  /** Past its last field, a record has nothing more to read. */
  lemma RecordEnd(sc: Scanners, t: string, rec: Record, p: nat)
    requires ScannersOk(sc) && p <= |t|
    ensures FieldsAt(sc, t, p, Layout(rec), Level(rec), |Layout(rec)|) == Parsed([], p)
  {
  }

  /** Fields `k` to the last of a record stand at `pos` with values `vals`. */
  lemma TailChain(sc: Scanners, t: string, rec: Record, k: nat, pos: seq<nat>, vals: seq<Value>)
    requires ScannersOk(sc) && |vals| == |Layout(rec)| && |pos| == |vals| + 1 && k <= |vals|
    requires Chain(sc, t, rec, k, |vals|, pos, vals)
    ensures FieldsAt(sc, t, pos[k], Layout(rec), Level(rec), k) == Parsed(vals[k..], pos[|vals|])
  {
    ChainEnd(sc, t, rec, k, |vals|, pos, vals);
    RecordEnd(sc, t, rec, pos[|vals|]);
    assert vals[|vals|..] == [];
    FieldsChain(sc, t, rec, k, |vals|, pos, vals);
  }

  /** A whole record whose fields stand at `pos` with values `vals`. */
  lemma RecordChain(sc: Scanners, t: string, rec: Record, pos: seq<nat>, vals: seq<Value>)
    requires ScannersOk(sc) && |vals| == |Layout(rec)| && |pos| == |vals| + 1
    requires Chain(sc, t, rec, 0, |vals|, pos, vals)
    ensures RecordAt(sc, t, pos[0], rec) == Parsed(vals, pos[|vals|])
  {
    TailChain(sc, t, rec, 0, pos, vals);
    assert vals[0..] == vals;
  }

  /** A chain holds at its end. */
  lemma {:induction false} ChainEnd(sc: Scanners, t: string, rec: Record, k: nat, j: nat, pos: seq<nat>, vals: seq<Value>)
    requires ScannersOk(sc) && |vals| == |Layout(rec)| && |pos| == |vals| + 1 && k <= j <= |vals|
    requires Chain(sc, t, rec, k, j, pos, vals)
    ensures Chain(sc, t, rec, j, j, pos, vals)
    decreases j - k
  {
    if k < j {
      ChainEnd(sc, t, rec, k + 1, j, pos, vals);
    }
  }

  /** The five fields of a `Vec2` record, read one after the other. */
  lemma Vec2Fields(sc: Scanners, t: string, i: nat, p1: nat, p2: nat, p3: nat, p4: nat, e: nat, x: real, y: real)
    requires ScannersOk(sc) && i <= p1 <= p2 <= p3 <= p4 <= e <= |t|
    requires FieldAt(sc, t, i, Char('(')) == Parsed(Mark, p1)
    requires FieldAt(sc, t, p1, Float) == Parsed(FloatValue(x), p2)
    requires FieldAt(sc, t, p2, Char(',')) == Parsed(Mark, p3)
    requires FieldAt(sc, t, p3, Float) == Parsed(FloatValue(y), p4)
    requires FieldAt(sc, t, p4, Char(')')) == Parsed(Mark, e)
    ensures RecordAt(sc, t, i, Vec2Record) == Parsed([Mark, FloatValue(x), Mark, FloatValue(y), Mark], e)
  {
    var pos: seq<nat> := [i, p1, p2, p3, p4, e];
    var vals := [Mark, FloatValue(x), Mark, FloatValue(y), Mark];
    assert Chain(sc, t, Vec2Record, 5, 5, pos, vals);
    assert Chain(sc, t, Vec2Record, 4, 5, pos, vals);
    assert Chain(sc, t, Vec2Record, 3, 5, pos, vals);
    assert Chain(sc, t, Vec2Record, 2, 5, pos, vals);
    assert Chain(sc, t, Vec2Record, 1, 5, pos, vals);
    assert Chain(sc, t, Vec2Record, 0, 5, pos, vals);
    RecordChain(sc, t, Vec2Record, pos, vals);
  }

  /*
   * The records
   */

  /** A `Vec2` record where no blank precedes it is a vector field. */
  lemma VectorField(sc: Scanners, t: string, i: nat, values: seq<Value>, e: nat)
    requires ScannersOk(sc) && i <= |t| && Skip(t, i) == i
    requires RecordAt(sc, t, i, Vec2Record) == Parsed(values, e)
    ensures FieldAt(sc, t, i, Vector) == Parsed(VectorValue(ToVec2(values)), e)
  {
  }

  /** The five pieces of a vector text `(x,y)`, each read where the previous one ended. */
  lemma Vec2Pieces(sc: Scanners, t: string, i: nat, x: string, y: string, cx: real, cy: real,
                   p1: nat, p2: nat, p3: nat, p4: nat)
    requires ScannersOk(sc) && ReadsFloat(sc, x, cx) && ReadsFloat(sc, y, cy)
    requires At(t, i, "(" + x + "," + y + ")")
    requires p1 == i + 1 && p2 == p1 + |x| && p3 == p2 + 1 && p4 == p3 + |y|
    ensures p4 < |t|
    ensures FieldAt(sc, t, i, Char('(')) == Parsed(Mark, p1)
    ensures FieldAt(sc, t, p1, Float) == Parsed(FloatValue(cx), p2)
    ensures FieldAt(sc, t, p2, Char(',')) == Parsed(Mark, p3)
    ensures FieldAt(sc, t, p3, Float) == Parsed(FloatValue(cy), p4)
    ensures FieldAt(sc, t, p4, Char(')')) == Parsed(Mark, p4 + 1)
  {
    AtSplit(t, i, "(" + x + "," + y, ")", p4);
    AtSplit(t, i, "(" + x + ",", y, p3);
    AtSplit(t, i, "(" + x, ",", p2);
    AtSplit(t, i, "(", x, p1);
    FirstChar(t, p2, ",");
    FirstChar(t, p4, ")");
    SymbolField(sc, t, i, '(');
    FloatField(sc, t, p1, x, cx);
    SymbolField(sc, t, p2, ',');
    FloatField(sc, t, p3, y, cy);
    SymbolField(sc, t, p4, ')');
  }

  /** A vector text `(x,y)` is read as the vector of the two numbers. */
  lemma Vec2Parses(sc: Scanners, t: string, i: nat, x: string, y: string, cx: real, cy: real)
    requires ScannersOk(sc) && ReadsFloat(sc, x, cx) && ReadsFloat(sc, y, cy)
    requires At(t, i, "(" + x + "," + y + ")")
    ensures FieldAt(sc, t, i, Vector) == Parsed(VectorValue(Vec2(cx, cy)), i + |x| + |y| + 3)
  {
    var p1 := i + 1;
    var p2 := p1 + |x|;
    var p3 := p2 + 1;
    var p4 := p3 + |y|;
    FirstChar(t, i, "(" + x + "," + y + ")");
    NoSkip(t, i);
    Vec2Pieces(sc, t, i, x, y, cx, cy, p1, p2, p3, p4);
    Vec2Fields(sc, t, i, p1, p2, p3, p4, p4 + 1, cx, cy);
    VectorField(sc, t, i, [Mark, FloatValue(cx), Mark, FloatValue(cy), Mark], p4 + 1);
  }

  /** The middleware's position text is read back as the position `rb` gives. */
  lemma PositionParses(fm: M.Formatters, sc: Scanners, rb: Readback, t: string, i: nat, v: Go.Vec2)
    requires ScannersOk(sc) && ReadsBack(fm, sc, rb) && At(t, i, M.PositionText(fm, v))
    ensures FieldAt(sc, t, i, Vector) == Parsed(VectorValue(Position(rb, v)), i + |M.PositionText(fm, v)|)
  {
    Vec2Parses(sc, t, i, fm.fToS(v.x), fm.fToS(v.y), rb.coord(v.x), rb.coord(v.y));
  }

  /** The blob text `Hp,m)` cut into its head `H = (a,b,c,`, its position `p` and the rest. */
  lemma BlobCut(t: string, i: nat, h: string, pt: string, m: string, p7: nat, p8: nat, p9: nat, p10: nat)
    requires At(t, i, h + pt + "," + m + ")")
    requires p7 == i + |h| && p8 == p7 + |pt| && p9 == p8 + 1 && p10 == p9 + |m|
    ensures At(t, i, h) && At(t, p7, pt) && At(t, p8, ",") && At(t, p9, m) && At(t, p10, ")")
    ensures p10 + 1 == i + |h + pt + "," + m + ")"|
  {
    AtSplit(t, i, h + pt + "," + m, ")", p10);
    AtSplit(t, i, h + pt + ",", m, p9);
    AtSplit(t, i, h + pt, ",", p8);
    AtSplit(t, i, h, pt, p7);
  }

  /** The head `(a,b,c,` of a blob text cut into its pieces. */
  lemma HeadSplit(t: string, i: nat, a: string, b: string, c: string, p1: nat, p2: nat, p3: nat, p4: nat, p5: nat, p6: nat)
    requires At(t, i, "(" + a + "," + b + "," + c + ",")
    requires p1 == i + 1 && p2 == p1 + |a| && p3 == p2 + 1 && p4 == p3 + |b| && p5 == p4 + 1 && p6 == p5 + |c|
    ensures At(t, i, "(") && At(t, p1, a) && At(t, p2, ",") && At(t, p3, b) && At(t, p4, ",")
    ensures At(t, p5, c) && At(t, p6, ",")
  {
    AtSplit(t, i, "(" + a + "," + b + "," + c, ",", p6);
    AtSplit(t, i, "(" + a + "," + b + ",", c, p5);
    AtSplit(t, i, "(" + a + "," + b, ",", p4);
    AtSplit(t, i, "(" + a + ",", b, p3);
    AtSplit(t, i, "(" + a, ",", p2);
    AtSplit(t, i, "(", a, p1);
  }

  /** The first four fields of a blob record, `(a,b`, each read where the previous one ended. */
  ghost predicate FrontRead(sc: Scanners, t: string, i: nat, na: int, nb: int, p1: nat, p2: nat, p3: nat, p4: nat)
  {
    var ok :=
      && ScannersOk(sc) && i <= p1 <= p2 <= p3 <= p4 <= |t|
      && FieldAt(sc, t, i, Char('(')) == Parsed(Mark, p1)
      && FieldAt(sc, t, p1, Int) == Parsed(IntValue(na), p2)
      && FieldAt(sc, t, p2, Char(',')) == Parsed(Mark, p3)
      && FieldAt(sc, t, p3, Int) == Parsed(IntValue(nb), p4);
    ok
  }

  /** The next three fields of a blob record, `,c,`, each read where the previous one ended. */
  ghost predicate MidRead(sc: Scanners, t: string, nc: int, p4: nat, p5: nat, p6: nat, p7: nat)
  {
    var ok :=
      && ScannersOk(sc) && p4 <= p5 <= p6 <= p7 <= |t|
      && FieldAt(sc, t, p4, Char(',')) == Parsed(Mark, p5)
      && FieldAt(sc, t, p5, Int) == Parsed(IntValue(nc), p6)
      && FieldAt(sc, t, p6, Char(',')) == Parsed(Mark, p7);
    ok
  }

  /** The fields of a blob record after its position, each read where the previous one ended. */
  ghost predicate TailRead(sc: Scanners, t: string, cm: real, p8: nat, p9: nat, p10: nat, e: nat)
  {
    var ok :=
      && ScannersOk(sc) && p8 <= p9 <= p10 <= e <= |t|
      && FieldAt(sc, t, p8, Char(',')) == Parsed(Mark, p9)
      && FieldAt(sc, t, p9, Float) == Parsed(FloatValue(cm), p10)
      && FieldAt(sc, t, p10, Char(')')) == Parsed(Mark, e);
    ok
  }

  /** What `TailRead` says, one fact at a time. */
  lemma TailOpen(sc: Scanners, t: string, cm: real, p8: nat, p9: nat, p10: nat, e: nat)
    requires TailRead(sc, t, cm, p8, p9, p10, e)
    ensures ScannersOk(sc) && p8 <= p9 <= p10 <= e <= |t|
    ensures FieldAt(sc, t, p8, Char(',')) == Parsed(Mark, p9)
    ensures FieldAt(sc, t, p9, Float) == Parsed(FloatValue(cm), p10)
    ensures FieldAt(sc, t, p10, Char(')')) == Parsed(Mark, e)
  {
  }

  /** The pieces `(a,b,c,` in front of a blob's position. */
  lemma BlobHeadPieces(sc: Scanners, t: string, i: nat, a: string, b: string, c: string, na: int, nb: int, nc: int,
                       p1: nat, p2: nat, p3: nat, p4: nat, p5: nat, p6: nat, p7: nat)
    requires ScannersOk(sc) && ReadsInt(sc, a, na) && ReadsInt(sc, b, nb) && ReadsInt(sc, c, nc)
    requires p1 == i + 1 && p2 == p1 + |a| && p3 == p2 + 1 && p4 == p3 + |b| && p5 == p4 + 1
    requires p6 == p5 + |c| && p7 == p6 + 1
    requires At(t, i, "(" + a + "," + b + "," + c + ",")
    ensures FrontRead(sc, t, i, na, nb, p1, p2, p3, p4) && MidRead(sc, t, nc, p4, p5, p6, p7)
  {
    HeadSplit(t, i, a, b, c, p1, p2, p3, p4, p5, p6);
    SymbolField(sc, t, i, '(');
    IntThen(sc, t, p1, a, na, ',');
    SymbolField(sc, t, p2, ',');
    IntThen(sc, t, p3, b, nb, ',');
    SymbolField(sc, t, p4, ',');
    IntThen(sc, t, p5, c, nc, ',');
    SymbolField(sc, t, p6, ',');
  }

  /** The pieces `,m)` behind a blob's position. */
  lemma BlobTailPieces(sc: Scanners, t: string, m: string, cm: real, p8: nat, p9: nat, p10: nat)
    requires ScannersOk(sc) && ReadsFloat(sc, m, cm)
    requires p9 == p8 + 1 && p10 == p9 + |m|
    requires At(t, p8, ",") && At(t, p9, m) && At(t, p10, ")")
    ensures TailRead(sc, t, cm, p8, p9, p10, p10 + 1)
  {
    SymbolField(sc, t, p8, ',');
    FloatThen(sc, t, p9, m, cm, ')');
    SymbolField(sc, t, p10, ')');
  }

  /** Where the eleven fields of a blob record start, and where the record ends. */
  function BlobPos(i: nat, p1: nat, p2: nat, p3: nat, p4: nat, p5: nat, p6: nat, p7: nat, p8: nat, p9: nat, p10: nat, e: nat): (pos: seq<nat>)
    ensures |pos| == 12 && pos[0] == i && pos[11] == e
  {
    [i, p1, p2, p3, p4, p5, p6, p7, p8, p9, p10, e]
  }

  /** The values of the eleven fields of a blob record. */
  function BlobVals(na: int, nb: int, nc: int, vec: Vec2, cm: real): (vals: seq<Value>)
    ensures |vals| == |Layout(BlobRecord)| && vals[7] == VectorValue(vec)
  {
    [Mark, IntValue(na), Mark, IntValue(nb), Mark, IntValue(nc), Mark, VectorValue(vec), Mark, FloatValue(cm), Mark]
  }

  /** The position, the mass and the closing parenthesis end a blob record. */
  lemma BlobTailChain(sc: Scanners, t: string, i: nat, na: int, nb: int, nc: int, vec: Vec2, cm: real,
                      p1: nat, p2: nat, p3: nat, p4: nat, p5: nat, p6: nat, p7: nat, p8: nat, p9: nat, p10: nat, e: nat)
    requires ScannersOk(sc) && p7 <= p8 <= p9 <= p10 <= e <= |t|
    requires FieldAt(sc, t, p8, Char(',')) == Parsed(Mark, p9)
    requires FieldAt(sc, t, p9, Float) == Parsed(FloatValue(cm), p10)
    requires FieldAt(sc, t, p10, Char(')')) == Parsed(Mark, e)
    requires FieldAt(sc, t, p7, Vector) == Parsed(VectorValue(vec), p8)
    ensures Chain(sc, t, BlobRecord, 7, 11, BlobPos(i, p1, p2, p3, p4, p5, p6, p7, p8, p9, p10, e), BlobVals(na, nb, nc, vec, cm))
  {
    var pos := BlobPos(i, p1, p2, p3, p4, p5, p6, p7, p8, p9, p10, e);
    var vals := BlobVals(na, nb, nc, vec, cm);
    assert Chain(sc, t, BlobRecord, 11, 11, pos, vals);
    assert Chain(sc, t, BlobRecord, 10, 11, pos, vals);
    assert Chain(sc, t, BlobRecord, 9, 11, pos, vals);
    assert Chain(sc, t, BlobRecord, 8, 11, pos, vals);
  }

  /** The fields `,c,` in front of the rest of a blob record. */
  lemma BlobMidChain(sc: Scanners, t: string, i: nat, na: int, nb: int, nc: int, vec: Vec2, cm: real,
                     p1: nat, p2: nat, p3: nat, p4: nat, p5: nat, p6: nat, p7: nat, p8: nat, p9: nat, p10: nat, e: nat)
    requires MidRead(sc, t, nc, p4, p5, p6, p7)
    requires Chain(sc, t, BlobRecord, 7, 11, BlobPos(i, p1, p2, p3, p4, p5, p6, p7, p8, p9, p10, e), BlobVals(na, nb, nc, vec, cm))
    ensures Chain(sc, t, BlobRecord, 4, 11, BlobPos(i, p1, p2, p3, p4, p5, p6, p7, p8, p9, p10, e), BlobVals(na, nb, nc, vec, cm))
  {
    var pos := BlobPos(i, p1, p2, p3, p4, p5, p6, p7, p8, p9, p10, e);
    var vals := BlobVals(na, nb, nc, vec, cm);
    assert Chain(sc, t, BlobRecord, 6, 11, pos, vals);
    assert Chain(sc, t, BlobRecord, 5, 11, pos, vals);
  }

  /** The fields `(a,b` in front of the rest of a blob record. */
  lemma BlobFrontChain(sc: Scanners, t: string, i: nat, na: int, nb: int, nc: int, vec: Vec2, cm: real,
                       p1: nat, p2: nat, p3: nat, p4: nat, p5: nat, p6: nat, p7: nat, p8: nat, p9: nat, p10: nat, e: nat)
    requires FrontRead(sc, t, i, na, nb, p1, p2, p3, p4)
    requires Chain(sc, t, BlobRecord, 4, 11, BlobPos(i, p1, p2, p3, p4, p5, p6, p7, p8, p9, p10, e), BlobVals(na, nb, nc, vec, cm))
    ensures Chain(sc, t, BlobRecord, 0, 11, BlobPos(i, p1, p2, p3, p4, p5, p6, p7, p8, p9, p10, e), BlobVals(na, nb, nc, vec, cm))
  {
    var pos := BlobPos(i, p1, p2, p3, p4, p5, p6, p7, p8, p9, p10, e);
    var vals := BlobVals(na, nb, nc, vec, cm);
    assert Chain(sc, t, BlobRecord, 3, 11, pos, vals);
    assert Chain(sc, t, BlobRecord, 2, 11, pos, vals);
    assert Chain(sc, t, BlobRecord, 1, 11, pos, vals);
  }

  /** The pieces of a blob text `(a,b,c,(x,y),m)`, each standing where the previous one ends, make the blob. */
  lemma BlobFromPieces(sc: Scanners, t: string, i: nat, a: string, b: string, c: string, x: string, y: string, m: string,
                       na: int, nb: int, nc: int, cx: real, cy: real, cm: real, p7: nat, p8: nat, p9: nat, p10: nat)
    requires ScannersOk(sc) && ReadsInt(sc, a, na) && ReadsInt(sc, b, nb) && ReadsInt(sc, c, nc)
    requires ReadsFloat(sc, x, cx) && ReadsFloat(sc, y, cy) && ReadsFloat(sc, m, cm)
    requires At(t, i, "(" + a + "," + b + "," + c + ",") && p7 == i + |"(" + a + "," + b + "," + c + ","|
    requires At(t, p7, "(" + x + "," + y + ")") && p8 == p7 + |"(" + x + "," + y + ")"|
    requires At(t, p8, ",") && At(t, p9, m) && At(t, p10, ")") && p9 == p8 + 1 && p10 == p9 + |m|
    ensures BlobAt(sc, t, i) == Parsed(Blob(na, nb, nc, Vec2(cx, cy), cm), p10 + 1)
  {
    var p1 := i + 1;
    var p2 := p1 + |a|;
    var p3 := p2 + 1;
    var p4 := p3 + |b|;
    var p5 := p4 + 1;
    var p6 := p5 + |c|;
    var e := p10 + 1;
    var vec := Vec2(cx, cy);
    Vec2Parses(sc, t, p7, x, y, cx, cy);
    BlobTailPieces(sc, t, m, cm, p8, p9, p10);
    TailOpen(sc, t, cm, p8, p9, p10, e);
    BlobTailChain(sc, t, i, na, nb, nc, vec, cm, p1, p2, p3, p4, p5, p6, p7, p8, p9, p10, e);
    BlobHeadPieces(sc, t, i, a, b, c, na, nb, nc, p1, p2, p3, p4, p5, p6, p7);
    BlobMidChain(sc, t, i, na, nb, nc, vec, cm, p1, p2, p3, p4, p5, p6, p7, p8, p9, p10, e);
    BlobFrontChain(sc, t, i, na, nb, nc, vec, cm, p1, p2, p3, p4, p5, p6, p7, p8, p9, p10, e);
    RecordChain(sc, t, BlobRecord, BlobPos(i, p1, p2, p3, p4, p5, p6, p7, p8, p9, p10, e), BlobVals(na, nb, nc, vec, cm));
    BlobRecordRead(sc, t, i, na, nb, nc, vec, cm, e);
  }

  /** A blob record is a blob. */
  lemma BlobRecordRead(sc: Scanners, t: string, i: nat, na: int, nb: int, nc: int, vec: Vec2, cm: real, e: nat)
    requires ScannersOk(sc) && i <= |t|
    requires RecordAt(sc, t, i, BlobRecord)
      == Parsed([Mark, IntValue(na), Mark, IntValue(nb), Mark, IntValue(nc), Mark, VectorValue(vec), Mark, FloatValue(cm), Mark], e)
    ensures BlobAt(sc, t, i) == Parsed(Blob(na, nb, nc, vec, cm), e)
  {
  }

  /** A blob text `(a,b,c,(x,y),m)` is read as the blob of those numbers. */
  lemma BlobTextParses(sc: Scanners, t: string, i: nat, a: string, b: string, c: string, x: string, y: string, m: string,
                       na: int, nb: int, nc: int, cx: real, cy: real, cm: real)
    requires ScannersOk(sc) && ReadsInt(sc, a, na) && ReadsInt(sc, b, nb) && ReadsInt(sc, c, nc)
    requires ReadsFloat(sc, x, cx) && ReadsFloat(sc, y, cy) && ReadsFloat(sc, m, cm)
    requires At(t, i, "(" + a + "," + b + "," + c + "," + ("(" + x + "," + y + ")") + "," + m + ")")
    ensures BlobAt(sc, t, i)
      == Parsed(Blob(na, nb, nc, Vec2(cx, cy), cm), i + |"(" + a + "," + b + "," + c + "," + ("(" + x + "," + y + ")") + "," + m + ")"|)
  {
    var h := "(" + a + "," + b + "," + c + ",";
    var pt := "(" + x + "," + y + ")";
    var p7: nat := i + |h|;
    var p8: nat := p7 + |pt|;
    var p9: nat := p8 + 1;
    var p10: nat := p9 + |m|;
    BlobCut(t, i, h, pt, m, p7, p8, p9, p10);
    BlobFromPieces(sc, t, i, a, b, c, x, y, m, na, nb, nc, cx, cy, cm, p7, p8, p9, p10);
  }

  /** The middleware's text of a blob is read back as the blob the bot receives. */
  lemma BlobParses(fm: M.Formatters, sc: Scanners, rb: Readback, t: string, i: nat, b: M.ServerMiddlewareBlob)
    requires ScannersOk(sc) && ReadsBack(fm, sc, rb) && At(t, i, M.BlobText(fm, b))
    ensures BlobAt(sc, t, i) == Parsed(BlobRead(rb, b), i + |M.BlobText(fm, b)|)
  {
    BlobTextParses(sc, t, i, fm.sprintUint(b.botId), fm.sprintUint(b.teamId), fm.sprintUint(b.index),
      fm.fToS(b.position.x), fm.fToS(b.position.y), fm.sprintUint(b.mass),
      b.botId, b.teamId, b.index, rb.coord(b.position.x), rb.coord(b.position.y), b.mass as real);
  }

  /** The food or toxin text `(p,m)` cut into its pieces. */
  lemma FoodCut(t: string, i: nat, pt: string, m: string, p1: nat, p2: nat, p3: nat, p4: nat)
    requires At(t, i, "(" + pt + "," + m + ")")
    requires p1 == i + 1 && p2 == p1 + |pt| && p3 == p2 + 1 && p4 == p3 + |m|
    ensures At(t, i, "(") && At(t, p1, pt) && At(t, p2, ",") && At(t, p3, m) && At(t, p4, ")")
    ensures p4 + 1 == i + |"(" + pt + "," + m + ")"|
  {
    AtSplit(t, i, "(" + pt + "," + m, ")", p4);
    AtSplit(t, i, "(" + pt + ",", m, p3);
    AtSplit(t, i, "(" + pt, ",", p2);
    AtSplit(t, i, "(", pt, p1);
  }

  /** The comma, the mass and the closing parenthesis end a food record. */
  lemma FoodTailChain(sc: Scanners, t: string, i: nat, p1: nat, p2: nat, p3: nat, p4: nat, e: nat, vec: Vec2, cm: real)
    requires ScannersOk(sc) && i <= p1 <= p2 <= p3 <= p4 <= e <= |t|
    requires FieldAt(sc, t, p2, Char(',')) == Parsed(Mark, p3)
    requires FieldAt(sc, t, p3, Float) == Parsed(FloatValue(cm), p4)
    requires FieldAt(sc, t, p4, Char(')')) == Parsed(Mark, e)
    ensures Chain(sc, t, FoodRecord, 2, 5, [i, p1, p2, p3, p4, e], [Mark, VectorValue(vec), Mark, FloatValue(cm), Mark])
  {
    var pos: seq<nat> := [i, p1, p2, p3, p4, e];
    var vals := [Mark, VectorValue(vec), Mark, FloatValue(cm), Mark];
    assert Chain(sc, t, FoodRecord, 5, 5, pos, vals);
    assert Chain(sc, t, FoodRecord, 4, 5, pos, vals);
    assert Chain(sc, t, FoodRecord, 3, 5, pos, vals);
  }

  /** The pieces `,m)` behind a food's position. */
  lemma FoodTail(sc: Scanners, t: string, i: nat, m: string, cm: real, p1: nat, p2: nat, p3: nat, p4: nat, e: nat, vec: Vec2)
    requires ScannersOk(sc) && ReadsFloat(sc, m, cm) && i <= p1 <= p2
    requires p3 == p2 + 1 && p4 == p3 + |m| && e == p4 + 1
    requires At(t, p2, ",") && At(t, p3, m) && At(t, p4, ")")
    ensures Chain(sc, t, FoodRecord, 2, 5, [i, p1, p2, p3, p4, e], [Mark, VectorValue(vec), Mark, FloatValue(cm), Mark])
  {
    BlobTailPieces(sc, t, m, cm, p2, p3, p4);
    TailOpen(sc, t, cm, p2, p3, p4, e);
    FoodTailChain(sc, t, i, p1, p2, p3, p4, e, vec, cm);
  }

  /** The position `(x,y)` in front of a food's mass. */
  lemma FoodVec(sc: Scanners, t: string, i: nat, x: string, y: string, cx: real, cy: real, cm: real,
                p1: nat, p2: nat, p3: nat, p4: nat, e: nat)
    requires ScannersOk(sc) && ReadsFloat(sc, x, cx) && ReadsFloat(sc, y, cy)
    requires i <= p1 && p2 == p1 + |x| + |y| + 3 && At(t, p1, "(" + x + "," + y + ")")
    requires p2 <= p3 <= p4 <= e <= |t|
    requires Chain(sc, t, FoodRecord, 2, 5, [i, p1, p2, p3, p4, e], [Mark, VectorValue(Vec2(cx, cy)), Mark, FloatValue(cm), Mark])
    ensures Chain(sc, t, FoodRecord, 1, 5, [i, p1, p2, p3, p4, e], [Mark, VectorValue(Vec2(cx, cy)), Mark, FloatValue(cm), Mark])
  {
    Vec2Parses(sc, t, p1, x, y, cx, cy);
    var pos: seq<nat> := [i, p1, p2, p3, p4, e];
    var vals := [Mark, VectorValue(Vec2(cx, cy)), Mark, FloatValue(cm), Mark];
    assert Chain(sc, t, FoodRecord, 1, 5, pos, vals);
  }

  /** The opening parenthesis in front of the other fields makes a food or toxin. */
  lemma FoodFields(sc: Scanners, t: string, i: nat, p1: nat, p2: nat, p3: nat, p4: nat, e: nat, vec: Vec2, cm: real)
    requires ScannersOk(sc) && i <= p1 <= p2 <= p3 <= p4 <= e <= |t|
    requires FieldAt(sc, t, i, Char('(')) == Parsed(Mark, p1)
    requires Chain(sc, t, FoodRecord, 1, 5, [i, p1, p2, p3, p4, e], [Mark, VectorValue(vec), Mark, FloatValue(cm), Mark])
    ensures FoodAt(sc, t, i) == Parsed(FoodOrToxin(vec, cm), e)
  {
    var pos: seq<nat> := [i, p1, p2, p3, p4, e];
    var vals := [Mark, VectorValue(vec), Mark, FloatValue(cm), Mark];
    assert Chain(sc, t, FoodRecord, 0, 5, pos, vals);
    RecordChain(sc, t, FoodRecord, pos, vals);
    FoodRecordRead(sc, t, i, vec, cm, e);
  }

  /** A food record is a food or toxin. */
  lemma FoodRecordRead(sc: Scanners, t: string, i: nat, vec: Vec2, cm: real, e: nat)
    requires ScannersOk(sc) && i <= |t|
    requires RecordAt(sc, t, i, FoodRecord) == Parsed([Mark, VectorValue(vec), Mark, FloatValue(cm), Mark], e)
    ensures FoodAt(sc, t, i) == Parsed(FoodOrToxin(vec, cm), e)
  {
  }

  /** The pieces of a food or toxin text `((x,y),m)`, each standing where the previous one ends, make the food or toxin. */
  lemma FoodFromPieces(sc: Scanners, t: string, i: nat, x: string, y: string, m: string, cx: real, cy: real, cm: real,
                       p1: nat, p2: nat, p3: nat, p4: nat, e: nat)
    requires ScannersOk(sc) && ReadsFloat(sc, x, cx) && ReadsFloat(sc, y, cy) && ReadsFloat(sc, m, cm)
    requires p1 == i + 1 && p2 == p1 + |"(" + x + "," + y + ")"| && p3 == p2 + 1 && p4 == p3 + |m| && e == p4 + 1
    requires At(t, i, "(") && At(t, p1, "(" + x + "," + y + ")") && At(t, p2, ",") && At(t, p3, m) && At(t, p4, ")")
    ensures FoodAt(sc, t, i) == Parsed(FoodOrToxin(Vec2(cx, cy), cm), e)
  {
    var vec := Vec2(cx, cy);
    FoodTail(sc, t, i, m, cm, p1, p2, p3, p4, e, vec);
    FoodVec(sc, t, i, x, y, cx, cy, cm, p1, p2, p3, p4, e);
    SymbolField(sc, t, i, '(');
    FoodFields(sc, t, i, p1, p2, p3, p4, e, vec, cm);
  }

  /** A food or toxin text `((x,y),m)` is read as the position and the mass. */
  lemma FoodTextParses(sc: Scanners, t: string, i: nat, x: string, y: string, m: string, cx: real, cy: real, cm: real)
    requires ScannersOk(sc) && ReadsFloat(sc, x, cx) && ReadsFloat(sc, y, cy) && ReadsFloat(sc, m, cm)
    requires At(t, i, "(" + ("(" + x + "," + y + ")") + "," + m + ")")
    ensures FoodAt(sc, t, i) == Parsed(FoodOrToxin(Vec2(cx, cy), cm), i + |"(" + ("(" + x + "," + y + ")") + "," + m + ")"|)
  {
    var pt := "(" + x + "," + y + ")";
    var p1 := i + 1;
    var p2 := p1 + |pt|;
    var p3 := p2 + 1;
    var p4 := p3 + |m|;
    FoodCut(t, i, pt, m, p1, p2, p3, p4);
    FoodFromPieces(sc, t, i, x, y, m, cx, cy, cm, p1, p2, p3, p4, p4 + 1);
  }

  /** A food's text: its position and the literal mass `10`. */
  lemma FoodTextShape(fm: M.Formatters, f: M.Food)
    ensures M.FoodText(fm, f) == "(" + M.PositionText(fm, f.position) + "," + "10" + ")"
  {
  }

  /** A toxin's text: its position and its mass. */
  lemma ToxinTextShape(fm: M.Formatters, v: M.Toxin)
    ensures M.ToxinText(fm, v) == "(" + M.PositionText(fm, v.position) + "," + fm.sprintFloat(v.mass) + ")"
  {
  }

  /** The middleware's text of a food is read back as a food of mass 10 at the position `rb` gives. */
  lemma FoodParses(fm: M.Formatters, sc: Scanners, rb: Readback, t: string, i: nat, f: M.Food)
    requires ScannersOk(sc) && ReadsBack(fm, sc, rb) && At(t, i, M.FoodText(fm, f))
    ensures FoodAt(sc, t, i) == Parsed(FoodRead(rb, f), i + |M.FoodText(fm, f)|)
  {
    FoodTextShape(fm, f);
    FoodTextParses(sc, t, i, fm.fToS(f.position.x), fm.fToS(f.position.y), "10",
      rb.coord(f.position.x), rb.coord(f.position.y), 10.0);
  }

  /** The middleware's text of a toxin is read back as the position and the mass `rb` gives. */
  lemma ToxinParses(fm: M.Formatters, sc: Scanners, rb: Readback, t: string, i: nat, v: M.Toxin)
    requires ScannersOk(sc) && ReadsBack(fm, sc, rb) && At(t, i, M.ToxinText(fm, v))
    ensures FoodAt(sc, t, i) == Parsed(ToxinRead(rb, v), i + |M.ToxinText(fm, v)|)
  {
    ToxinTextShape(fm, v);
    FoodTextParses(sc, t, i, fm.fToS(v.position.x), fm.fToS(v.position.y), fm.sprintFloat(v.mass),
      rb.coord(v.position.x), rb.coord(v.position.y), rb.mass(v.mass));
  }

  /*
   * The lists
   */

  /** A list element text followed by a comma and the rest of the list. */
  lemma ItemCut(t: string, p: nat, a: string, rest: string, q: nat)
    requires At(t, p, a + "," + rest + "]") && q == p + |a|
    ensures At(t, p, a) && At(t, q, ",") && At(t, q + 1, rest + "]")
  {
    var s := a + "," + rest + "]";
    forall k | 0 <= k < |a|
      ensures t[p + k] == a[k]
    {
      assert s[k] == a[k];
    }
    assert s[|a|] == ',';
    assert t[q + 0] == s[|a|];
    forall k | 0 <= k < |rest + "]"|
      ensures t[q + 1 + k] == (rest + "]")[k]
    {
      assert s[|a| + 1 + k] == (rest + "]")[k];
    }
  }

  /** A list element text standing at `j`; the name keeps the quantifier below to the element being read. */
  ghost predicate ItemAt(t: string, j: nat, a: string) {
    At(t, j, a)
  }

  /** A non-empty sequence is its first element and the rest. */
  lemma Uncons<T>(s: seq<T>)
    requires |s| > 0
    ensures s == [s[0]] + s[1..]
  {
  }

  /** A sequence of one element has nothing after its first. */
  lemma NoRest<T>(s: seq<T>)
    requires |s| == 1
    ensures s[1..] == []
  {
  }

  /** The elements of a non-empty list standing one after another from `p`, each followed by a comma, the last one by `]`. */
  ghost predicate ItemsAt(t: string, p: nat, texts: seq<string>)
    decreases |texts|
  {
    && |texts| > 0 && At(t, p, texts[0])
    && if |texts| == 1 then At(t, p + |texts[0]|, "]")
       else At(t, p + |texts[0]|, ",") && ItemsAt(t, p + |texts[0]| + 1, texts[1..])
  }

  /** The first element of the items, and what follows it. */
  lemma ItemsAtParts(t: string, p: nat, texts: seq<string>)
    requires ItemsAt(t, p, texts)
    ensures |texts| > 0 && At(t, p, texts[0])
    ensures |texts| == 1 ==> At(t, p + |texts[0]|, "]")
    ensures |texts| > 1 ==> At(t, p + |texts[0]|, ",") && ItemsAt(t, p + |texts[0]| + 1, texts[1..])
  {
  }

  lemma JoinOne(texts: seq<string>)
    requires |texts| == 1
    ensures M.Join(texts) == texts[0]
  {
  }

  lemma JoinLength(texts: seq<string>)
    requires |texts| > 1
    ensures |M.Join(texts)| == |texts[0]| + 1 + |M.Join(texts[1..])|
  {
  }

  /** Texts joined by commas and closed by `]` stand one after another. */
  lemma {:induction false} JoinedItems(t: string, p: nat, texts: seq<string>)
    requires |texts| > 0 && At(t, p, M.Join(texts) + "]")
    ensures ItemsAt(t, p, texts)
    decreases |texts|
  {
    var q := p + |texts[0]|;
    if |texts| == 1 {
      JoinOne(texts);
      AtSplit(t, p, texts[0], "]", q);
    } else {
      ItemCut(t, p, texts[0], M.Join(texts[1..]), q);
      JoinedItems(t, q + 1, texts[1..]);
    }
  }


  /** Every text of `texts` opens with `(` and, wherever it stands, is read by `BlobAt` as the matching blob of `vals`. */
  ghost predicate BlobsReadAs(sc: Scanners, t: string, texts: seq<string>, vals: seq<Blob>) {
    var ok :=
      && ScannersOk(sc) && |texts| == |vals|
      && forall k, j: nat {:trigger ItemAt(t, j, texts[k])} :: 0 <= k < |texts| && ItemAt(t, j, texts[k]) ==>
           && |texts[k]| > 0 && texts[k][0] == '(' && j <= |t|
           && BlobAt(sc, t, j) == Parsed(vals[k], j + |texts[k]|);
    ok
  }

  /** The first element of a blob list, where no blank precedes it. */
  lemma BlobFirst(sc: Scanners, t: string, p: nat, texts: seq<string>, vals: seq<Blob>)
    requires BlobsReadAs(sc, t, texts, vals) && |texts| > 0 && At(t, p, texts[0])
    ensures p < |t| && Skip(t, p) == p && BlobAt(sc, t, Skip(t, p)) == Parsed(vals[0], p + |texts[0]|)
  {
    assert ItemAt(t, p, texts[0]);
    FirstChar(t, p, texts[0]);
    NoSkip(t, p);
  }

  lemma BlobsReadAsTail(sc: Scanners, t: string, texts: seq<string>, vals: seq<Blob>)
    requires BlobsReadAs(sc, t, texts, vals) && |texts| > 0
    ensures BlobsReadAs(sc, t, texts[1..], vals[1..])
  {
    forall k, j: nat | 0 <= k < |texts| - 1 && ItemAt(t, j, texts[1..][k])
      ensures |texts[1..][k]| > 0 && texts[1..][k][0] == '(' && j <= |t|
      ensures BlobAt(sc, t, j) == Parsed(vals[1..][k], j + |texts[1..][k]|)
    {
      assert texts[1..][k] == texts[k + 1] && vals[1..][k] == vals[k + 1];
    }
  }

  /** The closing bracket after an element ends the list. */
  lemma BlobsClose(sc: Scanners, t: string, q: nat, m: nat)
    requires ScannersOk(sc) && m <= Capacity && At(t, q, "]")
    ensures BlobsAfterAt(sc, t, q, m) == Parsed([], q + 1)
  {
    FirstChar(t, q, "]");
    OtherSymbol(t, q, ',');
    SymbolLit(t, q, ']');
  }

  /** A comma after an element: the elements after it follow. */
  lemma BlobsComma(sc: Scanners, t: string, q: nat, m: nat, rest: seq<Blob>, e: nat)
    requires ScannersOk(sc) && m <= Capacity && At(t, q, ",")
    requires q + 1 <= |t| && BlobItemsAt(sc, t, q + 1, m) == Parsed(rest, e)
    ensures BlobsAfterAt(sc, t, q, m) == Parsed(rest, e)
  {
    SymbolLit(t, q, ',');
  }

  /** One element, then what follows it. */
  lemma BlobItemThen(sc: Scanners, t: string, p: nat, n: nat, v: Blob, q: nat, rest: seq<Blob>, e: nat, vals: seq<Blob>)
    requires ScannersOk(sc) && p <= |t| && n < Capacity && Skip(t, p) == p && vals == [v] + rest
    requires BlobAt(sc, t, Skip(t, p)) == Parsed(v, q) && BlobsAfterAt(sc, t, q, n + 1) == Parsed(rest, e)
    ensures BlobItemsAt(sc, t, p, n) == Parsed(vals, e)
  {
  }

  /** The blob list after its first element: the texts, values and positions that remain. */
  lemma BlobItemsTail(sc: Scanners, t: string, p: nat, texts: seq<string>, vals: seq<Blob>)
    requires BlobsReadAs(sc, t, texts, vals) && ItemsAt(t, p, texts) && |texts| > 1
    ensures At(t, p, texts[0]) && At(t, p + |texts[0]|, ",")
    ensures BlobsReadAs(sc, t, texts[1..], vals[1..]) && ItemsAt(t, p + |texts[0]| + 1, texts[1..])
    ensures |M.Join(texts)| == |texts[0]| + 1 + |M.Join(texts[1..])|
  {
    ItemsAtParts(t, p, texts);
    JoinLength(texts);
    BlobsReadAsTail(sc, t, texts, vals);
  }

  /** An element of a blob list, then what follows it, read as `vals[1..]`. */
  lemma BlobElement(sc: Scanners, t: string, p: nat, n: nat, texts: seq<string>, vals: seq<Blob>, q: nat, e: nat)
    requires BlobsReadAs(sc, t, texts, vals) && |texts| > 0 && n < Capacity
    requires At(t, p, texts[0]) && q == p + |texts[0]|
    requires BlobsAfterAt(sc, t, q, n + 1) == Parsed(vals[1..], e)
    ensures BlobItemsAt(sc, t, p, n) == Parsed(vals, e)
  {
    BlobFirst(sc, t, p, texts, vals);
    Uncons(vals);
    BlobItemThen(sc, t, p, n, vals[0], q, vals[1..], e, vals);
  }

  /** An element of a blob list, then a comma and the elements after it, read as `vals[1..]`. */
  lemma BlobNextItem(sc: Scanners, t: string, p: nat, n: nat, texts: seq<string>, vals: seq<Blob>, q: nat, e: nat)
    requires BlobsReadAs(sc, t, texts, vals) && |texts| > 0 && n < Capacity
    requires At(t, p, texts[0]) && q == p + |texts[0]| && At(t, q, ",")
    requires q + 1 <= |t| && BlobItemsAt(sc, t, q + 1, n + 1) == Parsed(vals[1..], e)
    ensures BlobItemsAt(sc, t, p, n) == Parsed(vals, e)
  {
    BlobsComma(sc, t, q, n + 1, vals[1..], e);
    BlobElement(sc, t, p, n, texts, vals, q, e);
  }

  /**
   * The elements of a non-empty blob list, standing one after another and
   * closed by `]`, are read one by one, `n` elements having been read
   * before them.
   */
  lemma {:induction false} BlobItemsParse(sc: Scanners, t: string, p: nat, n: nat, texts: seq<string>, vals: seq<Blob>)
    requires BlobsReadAs(sc, t, texts, vals) && ItemsAt(t, p, texts) && n + |texts| <= Capacity
    ensures BlobItemsAt(sc, t, p, n) == Parsed(vals, p + |M.Join(texts)| + 1)
    decreases |texts|, 1
  {
    if |texts| == 1 {
      var q := p + |texts[0]|;
      ItemsAtParts(t, p, texts);
      BlobsClose(sc, t, q, n + 1);
      JoinOne(texts);
      NoRest(vals);
      BlobElement(sc, t, p, n, texts, vals, q, q + 1);
    } else {
      BlobItemsParseMore(sc, t, p, n, texts, vals);
    }
  }

  /** `BlobItemsParse` for two or more elements: the first one, then the others by induction. */
  lemma {:induction false} BlobItemsParseMore(sc: Scanners, t: string, p: nat, n: nat, texts: seq<string>, vals: seq<Blob>)
    requires BlobsReadAs(sc, t, texts, vals) && ItemsAt(t, p, texts) && n + |texts| <= Capacity && |texts| > 1
    ensures BlobItemsAt(sc, t, p, n) == Parsed(vals, p + |M.Join(texts)| + 1)
    decreases |texts|, 0
  {
    var q := p + |texts[0]|;
    BlobItemsTail(sc, t, p, texts, vals);
    BlobItemsParse(sc, t, q + 1, n + 1, texts[1..], vals[1..]);
    BlobNextItem(sc, t, p, n, texts, vals, q, p + |M.Join(texts)| + 1);
  }

  /** Every text of `texts` opens with `(` and, wherever it stands, is read by `FoodAt` as the matching food or toxin of `vals`. */
  ghost predicate FoodsReadAs(sc: Scanners, t: string, texts: seq<string>, vals: seq<FoodOrToxin>) {
    var ok :=
      && ScannersOk(sc) && |texts| == |vals|
      && forall k, j: nat {:trigger ItemAt(t, j, texts[k])} :: 0 <= k < |texts| && ItemAt(t, j, texts[k]) ==>
           && |texts[k]| > 0 && texts[k][0] == '(' && j <= |t|
           && FoodAt(sc, t, j) == Parsed(vals[k], j + |texts[k]|);
    ok
  }

  /** The first element of a food or toxin list, where no blank precedes it. */
  lemma FoodFirst(sc: Scanners, t: string, p: nat, texts: seq<string>, vals: seq<FoodOrToxin>)
    requires FoodsReadAs(sc, t, texts, vals) && |texts| > 0 && At(t, p, texts[0])
    ensures p < |t| && Skip(t, p) == p && FoodAt(sc, t, Skip(t, p)) == Parsed(vals[0], p + |texts[0]|)
  {
    assert ItemAt(t, p, texts[0]);
    FirstChar(t, p, texts[0]);
    NoSkip(t, p);
  }

  lemma FoodsReadAsTail(sc: Scanners, t: string, texts: seq<string>, vals: seq<FoodOrToxin>)
    requires FoodsReadAs(sc, t, texts, vals) && |texts| > 0
    ensures FoodsReadAs(sc, t, texts[1..], vals[1..])
  {
    forall k, j: nat | 0 <= k < |texts| - 1 && ItemAt(t, j, texts[1..][k])
      ensures |texts[1..][k]| > 0 && texts[1..][k][0] == '(' && j <= |t|
      ensures FoodAt(sc, t, j) == Parsed(vals[1..][k], j + |texts[1..][k]|)
    {
      assert texts[1..][k] == texts[k + 1] && vals[1..][k] == vals[k + 1];
    }
  }

  /** The closing bracket after an element ends the list. */
  lemma FoodsClose(sc: Scanners, t: string, q: nat, m: nat)
    requires ScannersOk(sc) && m <= Capacity && At(t, q, "]")
    ensures FoodsAfterAt(sc, t, q, m) == Parsed([], q + 1)
  {
    FirstChar(t, q, "]");
    OtherSymbol(t, q, ',');
    SymbolLit(t, q, ']');
  }

  /** A comma after an element: the elements after it follow. */
  lemma FoodsComma(sc: Scanners, t: string, q: nat, m: nat, rest: seq<FoodOrToxin>, e: nat)
    requires ScannersOk(sc) && m <= Capacity && At(t, q, ",")
    requires q + 1 <= |t| && FoodItemsAt(sc, t, q + 1, m) == Parsed(rest, e)
    ensures FoodsAfterAt(sc, t, q, m) == Parsed(rest, e)
  {
    SymbolLit(t, q, ',');
  }

  /** One element, then what follows it. */
  lemma FoodItemThen(sc: Scanners, t: string, p: nat, n: nat, v: FoodOrToxin, q: nat, rest: seq<FoodOrToxin>, e: nat, vals: seq<FoodOrToxin>)
    requires ScannersOk(sc) && p <= |t| && n < Capacity && Skip(t, p) == p && vals == [v] + rest
    requires FoodAt(sc, t, Skip(t, p)) == Parsed(v, q) && FoodsAfterAt(sc, t, q, n + 1) == Parsed(rest, e)
    ensures FoodItemsAt(sc, t, p, n) == Parsed(vals, e)
  {
  }

  /** The food or toxin list after its first element: the texts, values and positions that remain. */
  lemma FoodItemsTail(sc: Scanners, t: string, p: nat, texts: seq<string>, vals: seq<FoodOrToxin>)
    requires FoodsReadAs(sc, t, texts, vals) && ItemsAt(t, p, texts) && |texts| > 1
    ensures At(t, p, texts[0]) && At(t, p + |texts[0]|, ",")
    ensures FoodsReadAs(sc, t, texts[1..], vals[1..]) && ItemsAt(t, p + |texts[0]| + 1, texts[1..])
    ensures |M.Join(texts)| == |texts[0]| + 1 + |M.Join(texts[1..])|
  {
    ItemsAtParts(t, p, texts);
    JoinLength(texts);
    FoodsReadAsTail(sc, t, texts, vals);
  }

  /** An element of a food or toxin list, then what follows it, read as `vals[1..]`. */
  lemma FoodElement(sc: Scanners, t: string, p: nat, n: nat, texts: seq<string>, vals: seq<FoodOrToxin>, q: nat, e: nat)
    requires FoodsReadAs(sc, t, texts, vals) && |texts| > 0 && n < Capacity
    requires At(t, p, texts[0]) && q == p + |texts[0]|
    requires FoodsAfterAt(sc, t, q, n + 1) == Parsed(vals[1..], e)
    ensures FoodItemsAt(sc, t, p, n) == Parsed(vals, e)
  {
    FoodFirst(sc, t, p, texts, vals);
    Uncons(vals);
    FoodItemThen(sc, t, p, n, vals[0], q, vals[1..], e, vals);
  }

  /** An element of a food or toxin list, then a comma and the elements after it, read as `vals[1..]`. */
  lemma FoodNextItem(sc: Scanners, t: string, p: nat, n: nat, texts: seq<string>, vals: seq<FoodOrToxin>, q: nat, e: nat)
    requires FoodsReadAs(sc, t, texts, vals) && |texts| > 0 && n < Capacity
    requires At(t, p, texts[0]) && q == p + |texts[0]| && At(t, q, ",")
    requires q + 1 <= |t| && FoodItemsAt(sc, t, q + 1, n + 1) == Parsed(vals[1..], e)
    ensures FoodItemsAt(sc, t, p, n) == Parsed(vals, e)
  {
    FoodsComma(sc, t, q, n + 1, vals[1..], e);
    FoodElement(sc, t, p, n, texts, vals, q, e);
  }

  /**
   * The elements of a non-empty food or toxin list, standing one after another and
   * closed by `]`, are read one by one, `n` elements having been read
   * before them.
   */
  lemma {:induction false} FoodItemsParse(sc: Scanners, t: string, p: nat, n: nat, texts: seq<string>, vals: seq<FoodOrToxin>)
    requires FoodsReadAs(sc, t, texts, vals) && ItemsAt(t, p, texts) && n + |texts| <= Capacity
    ensures FoodItemsAt(sc, t, p, n) == Parsed(vals, p + |M.Join(texts)| + 1)
    decreases |texts|, 1
  {
    if |texts| == 1 {
      var q := p + |texts[0]|;
      ItemsAtParts(t, p, texts);
      FoodsClose(sc, t, q, n + 1);
      JoinOne(texts);
      NoRest(vals);
      FoodElement(sc, t, p, n, texts, vals, q, q + 1);
    } else {
      FoodItemsParseMore(sc, t, p, n, texts, vals);
    }
  }

  /** `FoodItemsParse` for two or more elements: the first one, then the others by induction. */
  lemma {:induction false} FoodItemsParseMore(sc: Scanners, t: string, p: nat, n: nat, texts: seq<string>, vals: seq<FoodOrToxin>)
    requires FoodsReadAs(sc, t, texts, vals) && ItemsAt(t, p, texts) && n + |texts| <= Capacity && |texts| > 1
    ensures FoodItemsAt(sc, t, p, n) == Parsed(vals, p + |M.Join(texts)| + 1)
    decreases |texts|, 0
  {
    var q := p + |texts[0]|;
    FoodItemsTail(sc, t, p, texts, vals);
    FoodItemsParse(sc, t, q + 1, n + 1, texts[1..], vals[1..]);
    FoodNextItem(sc, t, p, n, texts, vals, q, p + |M.Join(texts)| + 1);
  }

  /*
   * Whole lists
   */

  /** A bracketed list is its opening bracket, then its elements and the closing bracket. */
  lemma BracketCut(t: string, i: nat, texts: seq<string>)
    requires At(t, i, M.Bracketed(texts))
    ensures At(t, i, "[") && At(t, i + 1, M.Join(texts) + "]")
    ensures |M.Bracketed(texts)| == |M.Join(texts)| + 2
  {
    assert M.Bracketed(texts) == "[" + (M.Join(texts) + "]");
    AtSplit(t, i, "[", M.Join(texts) + "]", i + 1);
  }

  /** The elements of no texts are the empty text. */
  lemma JoinNone(texts: seq<string>)
    requires |texts| == 0
    ensures M.Join(texts) + "]" == "]"
  {
  }

  /** A blob list whose closing bracket comes right after the opening one is empty. */
  lemma BlobsBodyEmpty(sc: Scanners, t: string, j: nat)
    requires ScannersOk(sc) && At(t, j, "]")
    ensures j <= |t| && BlobsBodyAt(sc, t, j) == Parsed([], j + 1)
  {
    SymbolLit(t, j, ']');
  }

  /** The elements of a blob list after its opening bracket, read one by one up to the closing bracket. */
  lemma BlobsBodyItems(sc: Scanners, t: string, j: nat, texts: seq<string>, vals: seq<Blob>)
    requires BlobsReadAs(sc, t, texts, vals) && ItemsAt(t, j, texts) && |texts| <= Capacity
    ensures j <= |t| && BlobsBodyAt(sc, t, j) == Parsed(vals, j + |M.Join(texts)| + 1)
  {
    ItemsAtParts(t, j, texts);
    assert ItemAt(t, j, texts[0]);
    FirstChar(t, j, texts[0]);
    OtherSymbol(t, j, ']');
    NoSkip(t, j);
    BlobItemsParse(sc, t, j, 0, texts, vals);
  }

  /** The text of a blob list, `[`, the element texts joined by commas, `]`, is read as the blobs `vals`. */
  lemma BlobsListParses(sc: Scanners, t: string, i: nat, texts: seq<string>, vals: seq<Blob>)
    requires BlobsReadAs(sc, t, texts, vals) && |texts| <= Capacity && At(t, i, M.Bracketed(texts))
    ensures i <= |t| && BlobsListAt(sc, t, i) == Parsed(vals, i + |M.Bracketed(texts)|)
  {
    BracketCut(t, i, texts);
    SymbolLit(t, i, '[');
    if |texts| == 0 {
      JoinNone(texts);
      BlobsBodyEmpty(sc, t, i + 1);
    } else {
      JoinedItems(t, i + 1, texts);
      BlobsBodyItems(sc, t, i + 1, texts, vals);
    }
  }

  /** The same, as a field of the game-state record. */
  lemma BlobListField(sc: Scanners, t: string, i: nat, texts: seq<string>, vals: seq<Blob>)
    requires BlobsReadAs(sc, t, texts, vals) && |texts| <= Capacity && At(t, i, M.Bracketed(texts))
    ensures i <= |t| && FieldAt(sc, t, i, BlobList) == Parsed(BlobsValue(vals), i + |M.Bracketed(texts)|)
  {
    BracketCut(t, i, texts);
    FirstChar(t, i, "[");
    NoSkip(t, i);
    BlobsListParses(sc, t, i, texts, vals);
  }

  /** A food or toxin list whose closing bracket comes right after the opening one is empty. */
  lemma FoodsBodyEmpty(sc: Scanners, t: string, j: nat)
    requires ScannersOk(sc) && At(t, j, "]")
    ensures j <= |t| && FoodsBodyAt(sc, t, j) == Parsed([], j + 1)
  {
    FirstChar(t, j, "]");
  }

  /** The elements of a food or toxin list after its opening bracket, read one by one up to the closing bracket. */
  lemma FoodsBodyItems(sc: Scanners, t: string, j: nat, texts: seq<string>, vals: seq<FoodOrToxin>)
    requires FoodsReadAs(sc, t, texts, vals) && ItemsAt(t, j, texts) && |texts| <= Capacity
    ensures j <= |t| && FoodsBodyAt(sc, t, j) == Parsed(vals, j + |M.Join(texts)| + 1)
  {
    ItemsAtParts(t, j, texts);
    assert ItemAt(t, j, texts[0]);
    FirstChar(t, j, texts[0]);
    FoodItemsParse(sc, t, j, 0, texts, vals);
  }

  /** The text of a food or toxin list is read as the foods or toxins `vals`. */
  lemma FoodsListParses(sc: Scanners, t: string, i: nat, texts: seq<string>, vals: seq<FoodOrToxin>)
    requires FoodsReadAs(sc, t, texts, vals) && |texts| <= Capacity && At(t, i, M.Bracketed(texts))
    ensures i <= |t| && FoodsListAt(sc, t, i) == Parsed(vals, i + |M.Bracketed(texts)|)
  {
    BracketCut(t, i, texts);
    SymbolLit(t, i, '[');
    if |texts| == 0 {
      JoinNone(texts);
      FoodsBodyEmpty(sc, t, i + 1);
    } else {
      JoinedItems(t, i + 1, texts);
      FoodsBodyItems(sc, t, i + 1, texts, vals);
    }
  }

  /** The same, as a field of the game-state record. */
  lemma FoodListField(sc: Scanners, t: string, i: nat, texts: seq<string>, vals: seq<FoodOrToxin>)
    requires FoodsReadAs(sc, t, texts, vals) && |texts| <= Capacity && At(t, i, M.Bracketed(texts))
    ensures i <= |t| && FieldAt(sc, t, i, FoodList) == Parsed(FoodsValue(vals), i + |M.Bracketed(texts)|)
  {
    BracketCut(t, i, texts);
    FirstChar(t, i, "[");
    NoSkip(t, i);
    FoodsListParses(sc, t, i, texts, vals);
  }

  /** One of the middleware's blob texts, wherever it stands, is read back as the blob the bot receives. */
  lemma BlobTextReadAs(fm: M.Formatters, sc: Scanners, rb: Readback, t: string, blobs: seq<M.ServerMiddlewareBlob>, k: nat, j: nat)
    requires ScannersOk(sc) && ReadsBack(fm, sc, rb) && k < |blobs| && ItemAt(t, j, M.BlobTexts(fm, blobs)[k])
    ensures |M.BlobTexts(fm, blobs)[k]| > 0 && M.BlobTexts(fm, blobs)[k][0] == '(' && j <= |t|
    ensures BlobAt(sc, t, j) == Parsed(BlobsRead(rb, blobs)[k], j + |M.BlobTexts(fm, blobs)[k]|)
  {
    BlobParses(fm, sc, rb, t, j, blobs[k]);
  }

  /** The middleware's blob texts are read back as the blobs the bot receives, wherever each one stands. */
  lemma BlobTextsReadAs(fm: M.Formatters, sc: Scanners, rb: Readback, t: string, blobs: seq<M.ServerMiddlewareBlob>)
    requires ScannersOk(sc) && ReadsBack(fm, sc, rb)
    ensures BlobsReadAs(sc, t, M.BlobTexts(fm, blobs), BlobsRead(rb, blobs))
  {
    forall k, j: nat | 0 <= k < |blobs| && ItemAt(t, j, M.BlobTexts(fm, blobs)[k])
      ensures |M.BlobTexts(fm, blobs)[k]| > 0 && M.BlobTexts(fm, blobs)[k][0] == '(' && j <= |t|
      ensures BlobAt(sc, t, j) == Parsed(BlobsRead(rb, blobs)[k], j + |M.BlobTexts(fm, blobs)[k]|)
    {
      BlobTextReadAs(fm, sc, rb, t, blobs, k, j);
    }
  }

  /** One of the middleware's food texts, wherever it stands, is read back as the food the bot receives. */
  lemma FoodTextReadAs(fm: M.Formatters, sc: Scanners, rb: Readback, t: string, food: seq<M.Food>, k: nat, j: nat)
    requires ScannersOk(sc) && ReadsBack(fm, sc, rb) && k < |food| && ItemAt(t, j, M.FoodTexts(fm, food)[k])
    ensures |M.FoodTexts(fm, food)[k]| > 0 && M.FoodTexts(fm, food)[k][0] == '(' && j <= |t|
    ensures FoodAt(sc, t, j) == Parsed(FoodsRead(rb, food)[k], j + |M.FoodTexts(fm, food)[k]|)
  {
    FoodParses(fm, sc, rb, t, j, food[k]);
  }

  /** The middleware's food texts are read back as the foods the bot receives, wherever each one stands. */
  lemma FoodTextsReadAs(fm: M.Formatters, sc: Scanners, rb: Readback, t: string, food: seq<M.Food>)
    requires ScannersOk(sc) && ReadsBack(fm, sc, rb)
    ensures FoodsReadAs(sc, t, M.FoodTexts(fm, food), FoodsRead(rb, food))
  {
    forall k, j: nat | 0 <= k < |food| && ItemAt(t, j, M.FoodTexts(fm, food)[k])
      ensures |M.FoodTexts(fm, food)[k]| > 0 && M.FoodTexts(fm, food)[k][0] == '(' && j <= |t|
      ensures FoodAt(sc, t, j) == Parsed(FoodsRead(rb, food)[k], j + |M.FoodTexts(fm, food)[k]|)
    {
      FoodTextReadAs(fm, sc, rb, t, food, k, j);
    }
  }

  /** One of the middleware's toxin texts, wherever it stands, is read back as the toxin the bot receives. */
  lemma ToxinTextReadAs(fm: M.Formatters, sc: Scanners, rb: Readback, t: string, toxins: seq<M.Toxin>, k: nat, j: nat)
    requires ScannersOk(sc) && ReadsBack(fm, sc, rb) && k < |toxins| && ItemAt(t, j, M.ToxinTexts(fm, toxins)[k])
    ensures |M.ToxinTexts(fm, toxins)[k]| > 0 && M.ToxinTexts(fm, toxins)[k][0] == '(' && j <= |t|
    ensures FoodAt(sc, t, j) == Parsed(ToxinsRead(rb, toxins)[k], j + |M.ToxinTexts(fm, toxins)[k]|)
  {
    ToxinParses(fm, sc, rb, t, j, toxins[k]);
  }

  /** The middleware's toxin texts are read back as the toxins the bot receives, wherever each one stands. */
  lemma ToxinTextsReadAs(fm: M.Formatters, sc: Scanners, rb: Readback, t: string, toxins: seq<M.Toxin>)
    requires ScannersOk(sc) && ReadsBack(fm, sc, rb)
    ensures FoodsReadAs(sc, t, M.ToxinTexts(fm, toxins), ToxinsRead(rb, toxins))
  {
    forall k, j: nat | 0 <= k < |toxins| && ItemAt(t, j, M.ToxinTexts(fm, toxins)[k])
      ensures |M.ToxinTexts(fm, toxins)[k]| > 0 && M.ToxinTexts(fm, toxins)[k][0] == '(' && j <= |t|
      ensures FoodAt(sc, t, j) == Parsed(ToxinsRead(rb, toxins)[k], j + |M.ToxinTexts(fm, toxins)[k]|)
    {
      ToxinTextReadAs(fm, sc, rb, t, toxins, k, j);
    }
  }

  /** The middleware's text of a blob list is read back as the blobs the bot receives. */
  lemma BlobsFieldParses(fm: M.Formatters, sc: Scanners, rb: Readback, t: string, i: nat, blobs: seq<M.ServerMiddlewareBlob>)
    requires ScannersOk(sc) && ReadsBack(fm, sc, rb) && |blobs| <= Capacity
    requires At(t, i, M.Bracketed(M.BlobTexts(fm, blobs)))
    ensures i <= |t|
    ensures FieldAt(sc, t, i, BlobList) == Parsed(BlobsValue(BlobsRead(rb, blobs)), i + |M.Bracketed(M.BlobTexts(fm, blobs))|)
  {
    BlobTextsReadAs(fm, sc, rb, t, blobs);
    BlobListField(sc, t, i, M.BlobTexts(fm, blobs), BlobsRead(rb, blobs));
  }

  /** The middleware's text of a food list is read back as the foods the bot receives. */
  lemma FoodsFieldParses(fm: M.Formatters, sc: Scanners, rb: Readback, t: string, i: nat, food: seq<M.Food>)
    requires ScannersOk(sc) && ReadsBack(fm, sc, rb) && |food| <= Capacity
    requires At(t, i, M.Bracketed(M.FoodTexts(fm, food)))
    ensures i <= |t|
    ensures FieldAt(sc, t, i, FoodList) == Parsed(FoodsValue(FoodsRead(rb, food)), i + |M.Bracketed(M.FoodTexts(fm, food))|)
  {
    FoodTextsReadAs(fm, sc, rb, t, food);
    FoodListField(sc, t, i, M.FoodTexts(fm, food), FoodsRead(rb, food));
  }

  /** The middleware's text of a toxin list is read back as the toxins the bot receives. */
  lemma ToxinsFieldParses(fm: M.Formatters, sc: Scanners, rb: Readback, t: string, i: nat, toxins: seq<M.Toxin>)
    requires ScannersOk(sc) && ReadsBack(fm, sc, rb) && |toxins| <= Capacity
    requires At(t, i, M.Bracketed(M.ToxinTexts(fm, toxins)))
    ensures i <= |t|
    ensures FieldAt(sc, t, i, FoodList) == Parsed(FoodsValue(ToxinsRead(rb, toxins)), i + |M.Bracketed(M.ToxinTexts(fm, toxins))|)
  {
    ToxinTextsReadAs(fm, sc, rb, t, toxins);
    FoodListField(sc, t, i, M.ToxinTexts(fm, toxins), ToxinsRead(rb, toxins));
  }

  /*
   * The whole line
   */

  /** The pieces of a line `(B,O,F,X)` standing one after another from `i`, the pieces `B`, `O`, `F` and `X` from `p1`, `p3`, `p5` and `p7`. */
  ghost predicate LineLaidOut(t: string, i: nat, b: string, o: string, f: string, x: string,
                              p1: nat, p2: nat, p3: nat, p4: nat, p5: nat, p6: nat, p7: nat, p8: nat)
  {
    && p1 == i + 1 && p2 == p1 + |b| && p3 == p2 + 1 && p4 == p3 + |o|
    && p5 == p4 + 1 && p6 == p5 + |f| && p7 == p6 + 1 && p8 == p7 + |x|
    && At(t, i, "(") && At(t, p1, b) && At(t, p2, ",") && At(t, p3, o) && At(t, p4, ",")
    && At(t, p5, f) && At(t, p6, ",") && At(t, p7, x) && At(t, p8, ")")
  }

  /** The line `(B,O,F,X)` cut into its pieces. */
  lemma LineCut(t: string, i: nat, b: string, o: string, f: string, x: string,
                p1: nat, p2: nat, p3: nat, p4: nat, p5: nat, p6: nat, p7: nat, p8: nat)
    requires At(t, i, "(" + b + "," + o + "," + f + "," + x + ")")
    requires p1 == i + 1 && p2 == p1 + |b| && p3 == p2 + 1 && p4 == p3 + |o|
    requires p5 == p4 + 1 && p6 == p5 + |f| && p7 == p6 + 1 && p8 == p7 + |x|
    ensures LineLaidOut(t, i, b, o, f, x, p1, p2, p3, p4, p5, p6, p7, p8)
    ensures p8 + 1 == i + |"(" + b + "," + o + "," + f + "," + x + ")"|
  {
    AtSplit(t, i, "(" + b + "," + o + "," + f + "," + x, ")", p8);
    AtSplit(t, i, "(" + b + "," + o + "," + f + ",", x, p7);
    AtSplit(t, i, "(" + b + "," + o + "," + f, ",", p6);
    AtSplit(t, i, "(" + b + "," + o + ",", f, p5);
    AtSplit(t, i, "(" + b + "," + o, ",", p4);
    AtSplit(t, i, "(" + b + ",", o, p3);
    AtSplit(t, i, "(" + b, ",", p2);
    AtSplit(t, i, "(", b, p1);
  }

  /** Where the nine fields of the game-state record start, and where the record ends. */
  function LinePos(i: nat, p1: nat, p2: nat, p3: nat, p4: nat, p5: nat, p6: nat, p7: nat, p8: nat, e: nat): (pos: seq<nat>)
    ensures |pos| == 10 && pos[0] == i && pos[9] == e
  {
    [i, p1, p2, p3, p4, p5, p6, p7, p8, e]
  }

  /** The values of the nine fields of the game-state record. */
  function LineVals(own: seq<Blob>, other: seq<Blob>, foods: seq<FoodOrToxin>, toxins: seq<FoodOrToxin>): (vals: seq<Value>)
    ensures |vals| == |Layout(AllRecord)|
  {
    [Mark, BlobsValue(own), Mark, BlobsValue(other), Mark, FoodsValue(foods), Mark, FoodsValue(toxins), Mark]
  }

  /** The fields `,F,X)` end the game-state record. */
  lemma LineTailChain(sc: Scanners, t: string, own: seq<Blob>, other: seq<Blob>, foods: seq<FoodOrToxin>, toxins: seq<FoodOrToxin>,
                      i: nat, p1: nat, p2: nat, p3: nat, p4: nat, p5: nat, p6: nat, p7: nat, p8: nat, e: nat)
    requires ScannersOk(sc) && p4 <= p5 <= p6 <= p7 <= p8 <= e <= |t|
    requires FieldAt(sc, t, p4, Char(',')) == Parsed(Mark, p5)
    requires FieldAt(sc, t, p5, FoodList) == Parsed(FoodsValue(foods), p6)
    requires FieldAt(sc, t, p6, Char(',')) == Parsed(Mark, p7)
    requires FieldAt(sc, t, p7, FoodList) == Parsed(FoodsValue(toxins), p8)
    requires FieldAt(sc, t, p8, Char(')')) == Parsed(Mark, e)
    ensures Chain(sc, t, AllRecord, 4, 9, LinePos(i, p1, p2, p3, p4, p5, p6, p7, p8, e), LineVals(own, other, foods, toxins))
  {
    var pos := LinePos(i, p1, p2, p3, p4, p5, p6, p7, p8, e);
    var vals := LineVals(own, other, foods, toxins);
    assert Chain(sc, t, AllRecord, 9, 9, pos, vals);
    assert Chain(sc, t, AllRecord, 8, 9, pos, vals);
    assert Chain(sc, t, AllRecord, 7, 9, pos, vals);
    assert Chain(sc, t, AllRecord, 6, 9, pos, vals);
    assert Chain(sc, t, AllRecord, 5, 9, pos, vals);
  }

  /** The fields `(B,O` in front of the rest of the game-state record. */
  lemma LineFrontChain(sc: Scanners, t: string, own: seq<Blob>, other: seq<Blob>, foods: seq<FoodOrToxin>, toxins: seq<FoodOrToxin>,
                       i: nat, p1: nat, p2: nat, p3: nat, p4: nat, p5: nat, p6: nat, p7: nat, p8: nat, e: nat)
    requires ScannersOk(sc) && i <= p1 <= p2 <= p3 <= p4 <= |t|
    requires FieldAt(sc, t, i, Char('(')) == Parsed(Mark, p1)
    requires FieldAt(sc, t, p1, BlobList) == Parsed(BlobsValue(own), p2)
    requires FieldAt(sc, t, p2, Char(',')) == Parsed(Mark, p3)
    requires FieldAt(sc, t, p3, BlobList) == Parsed(BlobsValue(other), p4)
    requires Chain(sc, t, AllRecord, 4, 9, LinePos(i, p1, p2, p3, p4, p5, p6, p7, p8, e), LineVals(own, other, foods, toxins))
    ensures Chain(sc, t, AllRecord, 0, 9, LinePos(i, p1, p2, p3, p4, p5, p6, p7, p8, e), LineVals(own, other, foods, toxins))
  {
    var pos := LinePos(i, p1, p2, p3, p4, p5, p6, p7, p8, e);
    var vals := LineVals(own, other, foods, toxins);
    assert Chain(sc, t, AllRecord, 3, 9, pos, vals);
    assert Chain(sc, t, AllRecord, 2, 9, pos, vals);
    assert Chain(sc, t, AllRecord, 1, 9, pos, vals);
  }

  /** A game-state record is the snapshot of its four lists. */
  lemma LineRecordRead(sc: Scanners, t: string, i: nat, own: seq<Blob>, other: seq<Blob>, foods: seq<FoodOrToxin>, toxins: seq<FoodOrToxin>, e: nat)
    requires ScannersOk(sc) && i <= |t|
    requires RecordAt(sc, t, i, AllRecord) == Parsed(LineVals(own, other, foods, toxins), e)
    ensures AllAt(sc, t, i) == Parsed(Snapshot(own, other, foods, toxins), e)
  {
  }

  /** The first four fields of the game-state record, `(B,O`, each read where the previous one ended. */
  ghost predicate LineFrontRead(sc: Scanners, t: string, own: seq<Blob>, other: seq<Blob>, i: nat, p1: nat, p2: nat, p3: nat, p4: nat)
  {
    var ok :=
      && ScannersOk(sc) && i <= p1 <= p2 <= p3 <= p4 <= |t|
      && FieldAt(sc, t, i, Char('(')) == Parsed(Mark, p1)
      && FieldAt(sc, t, p1, BlobList) == Parsed(BlobsValue(own), p2)
      && FieldAt(sc, t, p2, Char(',')) == Parsed(Mark, p3)
      && FieldAt(sc, t, p3, BlobList) == Parsed(BlobsValue(other), p4);
    ok
  }

  /** The last five fields of the game-state record, `,F,X)`, each read where the previous one ended. */
  ghost predicate LineTailRead(sc: Scanners, t: string, foods: seq<FoodOrToxin>, toxins: seq<FoodOrToxin>,
                               p4: nat, p5: nat, p6: nat, p7: nat, p8: nat, e: nat)
  {
    var ok :=
      && ScannersOk(sc) && p4 <= p5 <= p6 <= p7 <= p8 <= e <= |t|
      && FieldAt(sc, t, p4, Char(',')) == Parsed(Mark, p5)
      && FieldAt(sc, t, p5, FoodList) == Parsed(FoodsValue(foods), p6)
      && FieldAt(sc, t, p6, Char(',')) == Parsed(Mark, p7)
      && FieldAt(sc, t, p7, FoodList) == Parsed(FoodsValue(toxins), p8)
      && FieldAt(sc, t, p8, Char(')')) == Parsed(Mark, e);
    ok
  }

  /** The nine fields of a game-state record, each read where the previous one ended, make the snapshot of its lists. */
  lemma LineFromFields(sc: Scanners, t: string, own: seq<Blob>, other: seq<Blob>, foods: seq<FoodOrToxin>, toxins: seq<FoodOrToxin>,
                       i: nat, p1: nat, p2: nat, p3: nat, p4: nat, p5: nat, p6: nat, p7: nat, p8: nat, e: nat)
    requires LineFrontRead(sc, t, own, other, i, p1, p2, p3, p4)
    requires LineTailRead(sc, t, foods, toxins, p4, p5, p6, p7, p8, e)
    ensures AllAt(sc, t, i) == Parsed(Snapshot(own, other, foods, toxins), e)
  {
    LineTailChain(sc, t, own, other, foods, toxins, i, p1, p2, p3, p4, p5, p6, p7, p8, e);
    LineFrontChain(sc, t, own, other, foods, toxins, i, p1, p2, p3, p4, p5, p6, p7, p8, e);
    RecordChain(sc, t, AllRecord, LinePos(i, p1, p2, p3, p4, p5, p6, p7, p8, e), LineVals(own, other, foods, toxins));
    LineRecordRead(sc, t, i, own, other, foods, toxins, e);
  }

  /** The texts `(`, the two blob lists and the comma between them read as the first four fields of the game-state record. */
  lemma LineFront(sc: Scanners, t: string, bt: seq<string>, own: seq<Blob>, ot: seq<string>, other: seq<Blob>,
                  i: nat, p1: nat, p2: nat, p3: nat, p4: nat)
    requires BlobsReadAs(sc, t, bt, own) && BlobsReadAs(sc, t, ot, other) && |bt| <= Capacity && |ot| <= Capacity
    requires p1 == i + 1 && p2 == p1 + |M.Bracketed(bt)| && p3 == p2 + 1 && p4 == p3 + |M.Bracketed(ot)|
    requires At(t, i, "(") && At(t, p1, M.Bracketed(bt)) && At(t, p2, ",") && At(t, p3, M.Bracketed(ot))
    ensures LineFrontRead(sc, t, own, other, i, p1, p2, p3, p4)
  {
    SymbolField(sc, t, i, '(');
    BlobListField(sc, t, p1, bt, own);
    SymbolField(sc, t, p2, ',');
    BlobListField(sc, t, p3, ot, other);
  }

  /** The texts `,`, the food list, `,`, the toxin list and `)` read as the last five fields of the game-state record. */
  lemma LineTail(sc: Scanners, t: string, ft: seq<string>, foods: seq<FoodOrToxin>, xt: seq<string>, toxins: seq<FoodOrToxin>,
                 p4: nat, p5: nat, p6: nat, p7: nat, p8: nat)
    requires FoodsReadAs(sc, t, ft, foods) && FoodsReadAs(sc, t, xt, toxins) && |ft| <= Capacity && |xt| <= Capacity
    requires p5 == p4 + 1 && p6 == p5 + |M.Bracketed(ft)| && p7 == p6 + 1 && p8 == p7 + |M.Bracketed(xt)|
    requires At(t, p4, ",") && At(t, p5, M.Bracketed(ft)) && At(t, p6, ",") && At(t, p7, M.Bracketed(xt)) && At(t, p8, ")")
    ensures LineTailRead(sc, t, foods, toxins, p4, p5, p6, p7, p8, p8 + 1)
  {
    SymbolField(sc, t, p4, ',');
    FoodListField(sc, t, p5, ft, foods);
    SymbolField(sc, t, p6, ',');
    FoodListField(sc, t, p7, xt, toxins);
    SymbolField(sc, t, p8, ')');
  }

  /** The pieces of a line `(B,O,F,X)`, each standing where the previous one ends, read as the snapshot of its lists. */
  lemma LineFromPieces(sc: Scanners, t: string, bt: seq<string>, own: seq<Blob>, ot: seq<string>, other: seq<Blob>,
                       ft: seq<string>, foods: seq<FoodOrToxin>, xt: seq<string>, toxins: seq<FoodOrToxin>,
                       i: nat, p1: nat, p2: nat, p3: nat, p4: nat, p5: nat, p6: nat, p7: nat, p8: nat, e: nat)
    requires BlobsReadAs(sc, t, bt, own) && BlobsReadAs(sc, t, ot, other)
    requires FoodsReadAs(sc, t, ft, foods) && FoodsReadAs(sc, t, xt, toxins)
    requires |bt| <= Capacity && |ot| <= Capacity && |ft| <= Capacity && |xt| <= Capacity
    requires LineLaidOut(t, i, M.Bracketed(bt), M.Bracketed(ot), M.Bracketed(ft), M.Bracketed(xt), p1, p2, p3, p4, p5, p6, p7, p8)
    requires e == p8 + 1
    ensures AllAt(sc, t, i) == Parsed(Snapshot(own, other, foods, toxins), e)
  {
    LineFront(sc, t, bt, own, ot, other, i, p1, p2, p3, p4);
    LineTail(sc, t, ft, foods, xt, toxins, p4, p5, p6, p7, p8);
    LineFromFields(sc, t, own, other, foods, toxins, i, p1, p2, p3, p4, p5, p6, p7, p8, e);
  }

  /** A text stands where it starts. */
  lemma AtWhole(t: string)
    ensures At(t, 0, t)
  {
  }

  /**
   * A line `(B,O,F,X)` whose four lists are written with element texts
   * that read as `own`, `other`, `foods` and `toxins` is read as the
   * snapshot of those lists.
   */
  lemma LineParses(sc: Scanners, t: string, bt: seq<string>, own: seq<Blob>, ot: seq<string>, other: seq<Blob>,
                   ft: seq<string>, foods: seq<FoodOrToxin>, xt: seq<string>, toxins: seq<FoodOrToxin>)
    requires BlobsReadAs(sc, t, bt, own) && BlobsReadAs(sc, t, ot, other)
    requires FoodsReadAs(sc, t, ft, foods) && FoodsReadAs(sc, t, xt, toxins)
    requires |bt| <= Capacity && |ot| <= Capacity && |ft| <= Capacity && |xt| <= Capacity
    requires At(t, 0, "(" + M.Bracketed(bt) + "," + M.Bracketed(ot) + "," + M.Bracketed(ft) + "," + M.Bracketed(xt) + ")")
    ensures AllAt(sc, t, 0)
      == Parsed(Snapshot(own, other, foods, toxins), |"(" + M.Bracketed(bt) + "," + M.Bracketed(ot) + "," + M.Bracketed(ft) + "," + M.Bracketed(xt) + ")"|)
  {
    var b, o, f, x := M.Bracketed(bt), M.Bracketed(ot), M.Bracketed(ft), M.Bracketed(xt);
    var p1 := 1;
    var p2 := p1 + |b|;
    var p3 := p2 + 1;
    var p4 := p3 + |o|;
    var p5 := p4 + 1;
    var p6 := p5 + |f|;
    var p7 := p6 + 1;
    var p8 := p7 + |x|;
    LineCut(t, 0, b, o, f, x, p1, p2, p3, p4, p5, p6, p7, p8);
    LineFromPieces(sc, t, bt, own, ot, other, ft, foods, xt, toxins, 0, p1, p2, p3, p4, p5, p6, p7, p8,
      |"(" + M.Bracketed(bt) + "," + M.Bracketed(ot) + "," + M.Bracketed(ft) + "," + M.Bracketed(xt) + ")"|);
  }

  /**
   * The line the middleware writes for `msg` is read by `parseAll` as a
   * whole, and the four lists the bot gets are the middleware's lists
   * element by element, each number read back as `rb` says.
   */
  lemma EncodedLineParses(fm: M.Formatters, sc: Scanners, rb: Readback, msg: M.ServerMiddlewareGameState)
    requires ScannersOk(sc) && ReadsBack(fm, sc, rb)
    requires |msg.myBlob| <= Capacity && |msg.otherBlobs| <= Capacity && |msg.food| <= Capacity && |msg.toxin| <= Capacity
    ensures AllAt(sc, M.JsonToString(fm, msg), 0) == Parsed(Received(rb, msg), |M.JsonToString(fm, msg)|)
  {
    var t := M.JsonToString(fm, msg);
    AtWhole(t);
    BlobTextsReadAs(fm, sc, rb, t, msg.myBlob);
    BlobTextsReadAs(fm, sc, rb, t, msg.otherBlobs);
    FoodTextsReadAs(fm, sc, rb, t, msg.food);
    ToxinTextsReadAs(fm, sc, rb, t, msg.toxin);
    LineParses(sc, t, M.BlobTexts(fm, msg.myBlob), BlobsRead(rb, msg.myBlob), M.BlobTexts(fm, msg.otherBlobs), BlobsRead(rb, msg.otherBlobs),
      M.FoodTexts(fm, msg.food), FoodsRead(rb, msg.food), M.ToxinTexts(fm, msg.toxin), ToxinsRead(rb, msg.toxin));
  }

  /** `pwb_parseAll` on a fresh context returns true on `t`, reads it to its end and fills the four arrays with the lists of `g`. */
  ghost predicate FreshParse(t: string, sc: Scanners, g: Snapshot)
    requires ScannersOk(sc)
  {
    var r := Spec.PwbParseAll(t, sc, Spec.MkContext());
    r.0 && r.1.next == |t| && r.2 == Spec.Complete(g)
  }

  /** A whole line of the grammar is read by `pwb_parseAll` on a fresh context as the grammar reads it. */
  lemma FreshParseAll(t: string, sc: Scanners, g: Snapshot)
    requires ScannersOk(sc) && AllAt(sc, t, 0) == Parsed(g, |t|)
    ensures FreshParse(t, sc, g)
  {
    Spec.ParseAllAgrees(t, sc, Spec.MkContext());
  }

  /**
   * `pwb_parseAll` on a fresh context, given the line the middleware
   * writes for `msg`, returns true, reads the line to its end and fills
   * the four arrays with the lists the bot receives.
   */
  lemma BotReadsEncodedLine(fm: M.Formatters, sc: Scanners, rb: Readback, msg: M.ServerMiddlewareGameState)
    requires ScannersOk(sc) && ReadsBack(fm, sc, rb)
    requires |msg.myBlob| <= Capacity && |msg.otherBlobs| <= Capacity && |msg.food| <= Capacity && |msg.toxin| <= Capacity
    ensures FreshParse(M.JsonToString(fm, msg), sc, Received(rb, msg))
  {
    EncodedLineParses(fm, sc, rb, msg);
    FreshParseAll(M.JsonToString(fm, msg), sc, Received(rb, msg));
  }
}
