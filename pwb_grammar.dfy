/**
 * A reference grammar for the text the bot library accepts, written
 * directly on the input string and independent of the parse context.
 * Positions are indices into the whole input; `Parsed(v, e)` means the
 * construct starting at the given index was recognised with value `v`
 * and ends just before index `e`.
 *
 *   vec2   ::= ws '(' ws float ws ',' ws float ws ')'
 *   blob   ::= ws '(' ws int ws ',' ws int ws ',' ws int ws ',' ws vec2 ws ',' ws float ws ')'
 *   food   ::= ws '(' ws vec2 ws ',' ws float ws ')'
 *   blobs  ::= ws '[' ws ']'  |  ws '[' ws blob ws (',' ws blob ws)* ']'
 *   foods  ::= ws '[' ']'     |  ws '[' ws food ws (',' ws food ws)* ']'
 *   all    ::= ws '(' ws blobs ws ',' ws blobs ws ',' ws foods ws ',' ws foods ws ')'
 *
 * `ws` is a possibly empty run of spaces and tabs.  Integers and floats
 * are read by the C library's `sscanf` with `%i` and `%f`; that scanner
 * is a parameter of the model (see `Scanners`).  A list holds at most
 * `Capacity` elements.
 *
 * The four parenthesised records are described by tables (`Layout`): each
 * entry is one field, preceded by blanks, together with the message the
 * C parser reports when that field is missing.
 */
module PwbGrammar {
  import opened Wrappers
  import opened PwbData

  /**
   * The two `sscanf` conversions the parser uses, applied to the text from
   * the current position to the end of the input: `None` when no value was
   * assigned, otherwise the value and the number of characters consumed
   * (the `%n` count).
   */
  datatype Scanners = Scanners(scanInt: string -> Option<(int, nat)>, scanFloat: string -> Option<(real, nat)>)

  /**
   * What ISO C guarantees of a successful `%i` or `%f` conversion that
   * the parser relies on: at least one character was consumed, and no
   * more than the text holds.
   */
  ghost predicate ScannersOk(sc: Scanners) {
    && (forall t :: sc.scanInt(t).Some? ==> 1 <= sc.scanInt(t).value.1 <= |t|)
    && (forall t :: sc.scanFloat(t).Some? ==> 1 <= sc.scanFloat(t).value.1 <= |t|)
  }

  datatype Parsed<T> = Parsed(value: T, end: nat) | NoParse

  predicate IsBlank(c: char) {
    c == ' ' || c == '\t'
  }

  /** The first index at or after `i` that does not hold a space or a tab. */
  function Skip(t: string, i: nat): (j: nat)
    requires i <= |t|
    ensures i <= j <= |t|
    ensures j == |t| || !IsBlank(t[j])
    decreases |t| - i
  {
    if i < |t| && IsBlank(t[i]) then Skip(t, i + 1) else i
  }

  /** Everything `Skip` steps over is a space or a tab. */
  lemma {:induction false} SkipOverBlanks(t: string, i: nat)
    requires i <= |t|
    ensures forall k :: i <= k < Skip(t, i) ==> IsBlank(t[k])
    decreases |t| - i
  {
    if i < |t| && IsBlank(t[i]) {
      SkipOverBlanks(t, i + 1);
    }
  }

  predicate CharAt(t: string, i: nat, c: char) {
    i < |t| && t[i] == c
  }

  /** Blanks, then the character `c`. */
  function Lit(t: string, i: nat, c: char): (r: Parsed<()>)
    requires i <= |t|
    ensures r.Parsed? ==> i < r.end <= |t|
  {
    var a := Skip(t, i);
    if CharAt(t, a, c) then Parsed((), a + 1) else NoParse
  }

  function IntAt(sc: Scanners, t: string, i: nat): (r: Parsed<int>)
    requires ScannersOk(sc) && i <= |t|
    ensures r.Parsed? ==> i < r.end <= |t|
  {
    match sc.scanInt(t[i..])
    case Some(p) => Parsed(p.0, i + p.1)
    case None => NoParse
  }

  function FloatAt(sc: Scanners, t: string, i: nat): (r: Parsed<real>)
    requires ScannersOk(sc) && i <= |t|
    ensures r.Parsed? ==> i < r.end <= |t|
  {
    match sc.scanFloat(t[i..])
    case Some(p) => Parsed(p.0, i + p.1)
    case None => NoParse
  }

  /** What a field of a record holds. */
  datatype FieldKind = Char(c: char) | Int | Float | Vector | BlobList | FoodList

  /** One field of a record and the message reported when it is missing. */
  datatype Field = Field(kind: FieldKind, message: Message)

  /** The value read for one field. */
  datatype Value =
    | Mark
    | IntValue(i: int)
    | FloatValue(f: real)
    | VectorValue(v: Vec2)
    | BlobsValue(blobs: seq<Blob>)
    | FoodsValue(foods: seq<FoodOrToxin>)

  predicate Fits(kind: FieldKind, v: Value) {
    match kind
    case Char(_) => v.Mark?
    case Int => v.IntValue?
    case Float => v.FloatValue?
    case Vector => v.VectorValue?
    case BlobList => v.BlobsValue?
    case FoodList => v.FoodsValue?
  }

  /** `values` are the values of fields `k`, `k + 1`, ... of `fields`, in order. */
  predicate FitAll(fields: seq<Field>, k: nat, values: seq<Value>) {
    && k + |values| <= |fields|
    && forall j :: 0 <= j < |values| ==> Fits(fields[k + j].kind, values[j])
  }

  /** The records the library reads: `Vec2`, `Blob`, `FoodOrToxin` and the whole `VisibleGameState`. */
  datatype Record = Vec2Record | BlobRecord | FoodRecord | AllRecord

  function Layout(r: Record): (fields: seq<Field>)
    ensures |fields| > 0 && fields[0].kind == Char('(') && fields[|fields| - 1].kind == Char(')')
    ensures Shaped(fields, Level(r)) && Shallow(fields, RecordHeight(r))
  {
    match r
    case Vec2Record => [
      Field(Char('('), OpeningBracket),
      Field(Float, XValue),
      Field(Char(','), Comma),
      Field(Float, YValue),
      Field(Char(')'), ClosingBracket)]
    case BlobRecord => [
      Field(Char('('), OpeningBracket),
      Field(Int, BotIdField),
      Field(Char(','), Comma),
      Field(Int, TeamIdField),
      Field(Char(','), Comma),
      Field(Int, BlobIdField),
      Field(Char(','), Comma),
      Field(Vector, BlobPosition),
      Field(Char(','), Comma),
      Field(Float, BotMass),
      Field(Char(')'), ClosingBracket)]
    case FoodRecord => [
      Field(Char('('), OpeningBracket),
      Field(Vector, FoodPosition),
      Field(Char(','), Comma),
      Field(Float, FoodMass),
      Field(Char(')'), ClosingBracket)]
    case AllRecord => [
      Field(Char('('), OpeningBracket),
      Field(BlobList, OwnBlobs),
      Field(Char(','), Comma),
      Field(BlobList, OtherBlobs),
      Field(Char(','), Comma),
      Field(FoodList, Foods),
      Field(Char(','), Comma),
      Field(FoodList, Toxins),
      Field(Char(')'), ClosingBracket)]
  }

  /** No field nests records deeper than `level`, and no field expects the NUL character. */
  predicate Shaped(fields: seq<Field>, level: nat) {
    forall k :: 0 <= k < |fields| ==>
      && Rank(fields[k].kind) <= level
      && (fields[k].kind.Char? ==> fields[k].kind.c != '\0')
  }

  /** Every field's parser fits in fewer than `height` parse-context frames. */
  predicate Shallow(fields: seq<Field>, height: int) {
    forall k :: 0 <= k < |fields| ==> Height(fields[k].kind) < height
  }

  /** How deeply the parsers of a field nest records: the termination measure of the grammar. */
  function Rank(kind: FieldKind): nat {
    match kind
    case Vector => 1
    case BlobList => 3
    case FoodList => 3
    case _ => 0
  }

  function Level(r: Record): nat {
    match r
    case Vec2Record => 0
    case BlobRecord => 1
    case FoodRecord => 1
    case AllRecord => 3
  }

  /** The number of parse-context frames the C parser of a field uses at most. */
  function Height(kind: FieldKind): nat {
    match kind
    case Vector => 3
    case BlobList => 5
    case FoodList => 5
    case _ => 2
  }

  function RecordHeight(r: Record): nat {
    match r
    case Vec2Record => 3
    case BlobRecord => 4
    case FoodRecord => 4
    case AllRecord => 6
  }

  /** One field: blanks, then the field's text. */
  function FieldAt(sc: Scanners, t: string, i: nat, kind: FieldKind): (r: Parsed<Value>)
    requires ScannersOk(sc) && i <= |t|
    ensures r.Parsed? ==> i < r.end <= |t| && Fits(kind, r.value)
    ensures r.Parsed? && kind.BlobList? ==> |r.value.blobs| <= Capacity
    ensures r.Parsed? && kind.FoodList? ==> |r.value.foods| <= Capacity
    decreases Rank(kind), 0
  {
    match kind
    case Char(c) =>
      var p := Lit(t, i, c);
      if p.NoParse? then NoParse else Parsed(Mark, p.end)
    case Int =>
      var p := IntAt(sc, t, Skip(t, i));
      if p.NoParse? then NoParse else Parsed(IntValue(p.value), p.end)
    case Float =>
      var p := FloatAt(sc, t, Skip(t, i));
      if p.NoParse? then NoParse else Parsed(FloatValue(p.value), p.end)
    case Vector =>
      var p := RecordAt(sc, t, Skip(t, i), Vec2Record);
      if p.NoParse? then NoParse else Parsed(VectorValue(ToVec2(p.value)), p.end)
    case BlobList =>
      var p := BlobsListAt(sc, t, Skip(t, i));
      if p.NoParse? then NoParse else Parsed(BlobsValue(p.value), p.end)
    case FoodList =>
      var p := FoodsListAt(sc, t, Skip(t, i));
      if p.NoParse? then NoParse else Parsed(FoodsValue(p.value), p.end)
  }

  /** Fields `k`, `k + 1`, ... of the table `fields`, each after the one before. */
  function FieldsAt(sc: Scanners, t: string, i: nat, fields: seq<Field>, level: nat, k: nat): (r: Parsed<seq<Value>>)
    requires ScannersOk(sc) && i <= |t| && k <= |fields| && Shaped(fields, level)
    ensures r.Parsed? ==> i <= r.end <= |t| && k + |r.value| == |fields| && FitAll(fields, k, r.value)
    ensures r.Parsed? && k < |fields| ==> i < r.end
    decreases level, |fields| - k + 1
  {
    if k == |fields| then Parsed([], i) else
    var p := FieldAt(sc, t, i, fields[k].kind);
    if p.NoParse? then NoParse else
    var q := FieldsAt(sc, t, p.end, fields, level, k + 1);
    if q.NoParse? then NoParse else
    FitCons(fields, k, p.value, q.value);
    Parsed([p.value] + q.value, q.end)
  }

  lemma FitCons(fields: seq<Field>, k: nat, v: Value, values: seq<Value>)
    requires k < |fields| && Fits(fields[k].kind, v) && FitAll(fields, k + 1, values)
    ensures FitAll(fields, k, [v] + values)
  {
    forall j | 0 <= j < |[v] + values|
      ensures Fits(fields[k + j].kind, ([v] + values)[j])
    {
      if j > 0 {
        assert fields[k + j] == fields[k + 1 + (j - 1)];
      }
    }
  }

  /** A whole record. */
  function RecordAt(sc: Scanners, t: string, i: nat, rec: Record): (r: Parsed<seq<Value>>)
    requires ScannersOk(sc) && i <= |t|
    ensures r.Parsed? ==> i < r.end <= |t| && |r.value| == |Layout(rec)| && FitAll(Layout(rec), 0, r.value)
    decreases Level(rec), |Layout(rec)| + 2
  {
    FieldsAt(sc, t, i, Layout(rec), Level(rec), 0)
  }

  /**
   * The number, vector or list a field's value holds.  A value of another
   * kind holds none and gives the default; `RecordAt` rules that case out.
   */
  function IntOf(v: Value): int { if v.IntValue? then v.i else 0 }
  function FloatOf(v: Value): real { if v.FloatValue? then v.f else 0.0 }
  function VectorOf(v: Value): Vec2 { if v.VectorValue? then v.v else Vec2(0.0, 0.0) }

  function ToVec2(values: seq<Value>): Vec2
    requires |values| == |Layout(Vec2Record)|
  {
    Vec2(FloatOf(values[1]), FloatOf(values[3]))
  }

  function ToBlob(values: seq<Value>): Blob
    requires |values| == |Layout(BlobRecord)|
  {
    Blob(IntOf(values[1]), IntOf(values[3]), IntOf(values[5]), VectorOf(values[7]), FloatOf(values[9]))
  }

  function ToFoodOrToxin(values: seq<Value>): FoodOrToxin
    requires |values| == |Layout(FoodRecord)|
  {
    FoodOrToxin(VectorOf(values[1]), FloatOf(values[3]))
  }

  /** The four lists of one game-state message. */
  datatype Snapshot = Snapshot(ownBlobs: seq<Blob>, otherBlobs: seq<Blob>, foods: seq<FoodOrToxin>, toxins: seq<FoodOrToxin>)

  function ToSnapshot(values: seq<Value>): Snapshot
    requires FitAll(Layout(AllRecord), 0, values) && |values| == |Layout(AllRecord)|
  {
    Snapshot(values[1].blobs, values[3].blobs, values[5].foods, values[7].foods)
  }

  function Vec2At(sc: Scanners, t: string, i: nat): (r: Parsed<Vec2>)
    requires ScannersOk(sc) && i <= |t|
  {
    var p := RecordAt(sc, t, i, Vec2Record);
    if p.NoParse? then NoParse else Parsed(ToVec2(p.value), p.end)
  }

  function BlobAt(sc: Scanners, t: string, i: nat): (r: Parsed<Blob>)
    requires ScannersOk(sc) && i <= |t|
    ensures r.Parsed? ==> i < r.end <= |t|
    decreases 1, |Layout(BlobRecord)| + 3
  {
    var p := RecordAt(sc, t, i, BlobRecord);
    if p.NoParse? then NoParse else Parsed(ToBlob(p.value), p.end)
  }

  function FoodAt(sc: Scanners, t: string, i: nat): (r: Parsed<FoodOrToxin>)
    requires ScannersOk(sc) && i <= |t|
    ensures r.Parsed? ==> i < r.end <= |t|
    decreases 1, |Layout(FoodRecord)| + 3
  {
    var p := RecordAt(sc, t, i, FoodRecord);
    if p.NoParse? then NoParse else Parsed(ToFoodOrToxin(p.value), p.end)
  }

  function AllAt(sc: Scanners, t: string, i: nat): (r: Parsed<Snapshot>)
    requires ScannersOk(sc) && i <= |t|
  {
    var p := RecordAt(sc, t, i, AllRecord);
    if p.NoParse? then NoParse else Parsed(ToSnapshot(p.value), p.end)
  }

  /**
   * The elements of a non-empty blob list from index `i` through its
   * closing bracket, `n` elements having been read before them.  After
   * each element comes either a comma and a further element, or the
   * closing bracket; a list holds at most `Capacity` elements.
   */
  function BlobItemsAt(sc: Scanners, t: string, i: nat, n: nat): (r: Parsed<seq<Blob>>)
    requires ScannersOk(sc) && i <= |t| && n <= Capacity
    ensures r.Parsed? ==> i < r.end <= |t| && 0 < |r.value| <= Capacity - n
    decreases 2, 2 * (|t| - i) + 1
  {
    var item := BlobAt(sc, t, Skip(t, i));
    if item.NoParse? || n == Capacity then NoParse else
    var rest := BlobsAfterAt(sc, t, item.end, n + 1);
    if rest.NoParse? then NoParse else Parsed([item.value] + rest.value, rest.end)
  }

  /** After an element: a comma and the next element, or the closing bracket. */
  function BlobsAfterAt(sc: Scanners, t: string, i: nat, n: nat): (r: Parsed<seq<Blob>>)
    requires ScannersOk(sc) && i <= |t| && n <= Capacity
    ensures r.Parsed? ==> i < r.end <= |t| && |r.value| <= Capacity - n
    decreases 2, 2 * (|t| - i)
  {
    var comma := Lit(t, i, ',');
    if comma.Parsed? then BlobItemsAt(sc, t, comma.end, n) else
    var close := Lit(t, i, ']');
    if close.NoParse? then NoParse else Parsed([], close.end)
  }

  function BlobsListAt(sc: Scanners, t: string, i: nat): (r: Parsed<seq<Blob>>)
    requires ScannersOk(sc) && i <= |t|
    ensures r.Parsed? ==> i < r.end <= |t| && |r.value| <= Capacity
    decreases 2, 2 * (|t| - i) + 3
  {
    var open := Lit(t, i, '[');
    if open.NoParse? then NoParse else BlobsBodyAt(sc, t, open.end)
  }

  /** A blob list after its opening bracket: a closing bracket, blanks allowed before it, or the elements. */
  function BlobsBodyAt(sc: Scanners, t: string, i: nat): (r: Parsed<seq<Blob>>)
    requires ScannersOk(sc) && i <= |t|
    ensures r.Parsed? ==> i < r.end <= |t| && |r.value| <= Capacity
    decreases 2, 2 * (|t| - i) + 2
  {
    var close := Lit(t, i, ']');
    if close.Parsed? then Parsed([], close.end) else BlobItemsAt(sc, t, Skip(t, i), 0)
  }

  /** As `BlobItemsAt`, for foods and toxins. */
  function FoodItemsAt(sc: Scanners, t: string, i: nat, n: nat): (r: Parsed<seq<FoodOrToxin>>)
    requires ScannersOk(sc) && i <= |t| && n <= Capacity
    ensures r.Parsed? ==> i < r.end <= |t| && 0 < |r.value| <= Capacity - n
    decreases 2, 2 * (|t| - i) + 1
  {
    var item := FoodAt(sc, t, Skip(t, i));
    if item.NoParse? || n == Capacity then NoParse else
    var rest := FoodsAfterAt(sc, t, item.end, n + 1);
    if rest.NoParse? then NoParse else Parsed([item.value] + rest.value, rest.end)
  }

  /** After an element: a comma and the next element, or the closing bracket. */
  function FoodsAfterAt(sc: Scanners, t: string, i: nat, n: nat): (r: Parsed<seq<FoodOrToxin>>)
    requires ScannersOk(sc) && i <= |t| && n <= Capacity
    ensures r.Parsed? ==> i < r.end <= |t| && |r.value| <= Capacity - n
    decreases 2, 2 * (|t| - i)
  {
    var comma := Lit(t, i, ',');
    if comma.Parsed? then FoodItemsAt(sc, t, comma.end, n) else
    var close := Lit(t, i, ']');
    if close.NoParse? then NoParse else Parsed([], close.end)
  }

  /** Unlike a blob list, an empty food list admits no blank between its brackets. */
  function FoodsListAt(sc: Scanners, t: string, i: nat): (r: Parsed<seq<FoodOrToxin>>)
    requires ScannersOk(sc) && i <= |t|
    ensures r.Parsed? ==> i < r.end <= |t| && |r.value| <= Capacity
    decreases 2, 2 * (|t| - i) + 3
  {
    var open := Lit(t, i, '[');
    if open.NoParse? then NoParse else FoodsBodyAt(sc, t, open.end)
  }

  /** A food list after its opening bracket: a closing bracket right away, or the elements. */
  function FoodsBodyAt(sc: Scanners, t: string, i: nat): (r: Parsed<seq<FoodOrToxin>>)
    requires ScannersOk(sc) && i <= |t|
    ensures r.Parsed? ==> i < r.end <= |t| && |r.value| <= Capacity
    decreases 2, 2 * (|t| - i) + 2
  {
    if CharAt(t, i, ']') then Parsed([], i + 1) else FoodItemsAt(sc, t, i, 0)
  }
}
