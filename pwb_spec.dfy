/**
 * The parse context of BotCpp/BotCpp/pwb.h as a value, and every parser of
 * that file as a function from the context before the call to the context
 * after it, its `ParseResult` and the value it wrote through its out
 * pointer.  The imperative parser in `PwbParser` is proved to compute
 * exactly these functions; the functions in turn are proved to agree with
 * the reference grammar of `PwbGrammar`.
 *
 * The frame bookkeeping is reproduced as written, including its quirks:
 * a failing parser stores its message in the frame one above its own
 * (the frame of the child that failed), `numMaxParserInvocations` stops
 * shrinking once `success` is false, the empty-list probe works on a
 * context copied with only ten pointer words of its frames, and the
 * comma probe that ends every non-empty list leaves `success` false.
 */
module PwbSpec {
  import opened Wrappers
  import opened PwbData
  import opened PwbGrammar

  /** `NUM_MAX_PARSE_LEVELS`: the number of frames in a context. */
  const NumMaxParseLevels: nat := 10

  /** Pointer-sized words in one `ParserInvocation`: name, location, errorMessage. */
  const WordsPerInvocation: nat := 3

  /** A word of memory that was either written or is uninitialised. */
  datatype Cell<T> = Known(value: T) | Indeterminate

  /**
   * `ParserInvocation`: the parser's name (its `__FUNCTION__`), the input
   * offset where it started, and an error message (`None` is `nullptr`).
   */
  datatype Slot = Slot(name: Cell<Parser>, location: Cell<nat>, errorMessage: Cell<Option<Message>>)

  /** A frame nobody has written since the context was created. */
  const Garbage: Slot := Slot(Indeterminate, Indeterminate, Indeterminate)

  /**
   * `ParseContext` without its input: `next` is an offset into the input,
   * `depth` is `numParserInvocations` and `maxDepth` is
   * `numMaxParserInvocations`.
   */
  datatype State = State(next: nat, success: bool, frames: seq<Slot>, depth: int, maxDepth: int)

  /** `ParseResult`; `next` is an offset into the input. */
  datatype ParseResult = ParseResult(success: bool, advance: int, next: int)

  /** What one parser call produces: the new context, its result and the value it wrote. */
  datatype Step<T> = Step(st: State, res: ParseResult, value: T)

  /**
   * The shape every context reachable from `pwb_mkContext` has: ten
   * frames, the two counters ordered, `success` exactly when no pop was
   * skipped, and `next` inside the input (at most on its terminator).
   */
  ghost predicate Wf(input: string, s: State) {
    && |s.frames| == NumMaxParseLevels
    && 0 <= s.depth <= s.maxDepth
    && (s.success <==> s.depth == s.maxDepth)
    && s.next <= |input|
  }

  /**
   * What every parser guarantees of the context it returns: well formed,
   * back at the caller's depth, `next` never moved backwards, a failure
   * never undone, and `maxDepth` grown by at least one when the returned
   * context has failed.
   */
  ghost predicate Balanced(input: string, s: State, r: State) {
    && Wf(input, r)
    && r.depth == s.depth
    && s.next <= r.next
    && (!s.success ==> !r.success)
    && r.maxDepth >= s.maxDepth
    && (!r.success ==> r.maxDepth > s.maxDepth)
  }

  /** A parser step agrees with the reference grammar: same verdict, same end and same value. */
  ghost predicate Agrees<T>(r: Step<T>, g: Parsed<T>) {
    && (r.res.success <==> g.Parsed?)
    && (g.Parsed? ==> r.st.next == g.end && r.value == g.value)
  }

  /** `pwb_mkContext`: the frames are left uninitialised. */
  function MkContext(): (s: State)
    ensures forall input :: Wf(input, s)
    ensures s.success && s.next == 0 && s.depth == 0
    ensures forall i :: 0 <= i < |s.frames| ==> s.frames[i] == Garbage
  {
    State(0, true, seq(NumMaxParseLevels, _ => Garbage), 0, 0)
  }

  /** `mkParserInvokation`. */
  function MkParserInvocation(name: Parser, location: nat): Slot {
    Slot(Known(name), Known(location), Known(None))
  }

  /**
   * The frame `slot` at index `i` of a copy whose first `words` pointer
   * words have been copied: field `f` of frame `i` is word `3 * i + f`,
   * and a word not yet copied is uninitialised.
   */
  function CopiedSlot(slot: Slot, i: nat, words: nat): Slot {
    Slot(if WordsPerInvocation * i < words then slot.name else Indeterminate,
         if WordsPerInvocation * i + 1 < words then slot.location else Indeterminate,
         if WordsPerInvocation * i + 2 < words then slot.errorMessage else Indeterminate)
  }

  /**
   * `mkContext`: copies the scalars, but `memcpy` copies only
   * `NUM_MAX_PARSE_LEVELS` pointer words of the frames, so frames 0 to 2
   * are copied whole, frame 3 keeps only its name and the rest stay
   * uninitialised.
   */
  function Clone(s: State): (c: State)
    requires |s.frames| == NumMaxParseLevels
    ensures c.next == s.next && c.success == s.success && c.depth == s.depth && c.maxDepth == s.maxDepth
    ensures |c.frames| == NumMaxParseLevels
    ensures c.frames[..3] == s.frames[..3]
    ensures c.frames[3] == Slot(s.frames[3].name, Indeterminate, Indeterminate)
    ensures forall i :: 4 <= i < NumMaxParseLevels ==> c.frames[i] == Garbage
  {
    s.(frames := seq(NumMaxParseLevels, i requires 0 <= i < NumMaxParseLevels => CopiedSlot(s.frames[i], i, NumMaxParseLevels)))
  }

  /** `pushLevel`. */
  function PushLevel(s: State, name: Parser): State
    requires 0 <= s.depth < |s.frames|
  {
    s.(frames := s.frames[s.depth := MkParserInvocation(name, s.next)], depth := s.depth + 1, maxDepth := s.maxDepth + 1)
  }

  /** `popLevel`: `maxDepth` follows `depth` down only while the parse has not failed. */
  function PopLevel(s: State): State {
    s.(depth := s.depth - 1, maxDepth := if s.success then s.maxDepth - 1 else s.maxDepth)
  }

  /**
   * `mkError`: the message goes into the frame at the current depth, which
   * is the frame of the failed child, not the failing parser's own.
   */
  function MkError<T>(s: State, message: Message, v: T): Step<T>
    requires 0 <= s.depth < |s.frames|
  {
    var frames := s.frames[s.depth := s.frames[s.depth].(errorMessage := Known(Some(message)))];
    Step(PopLevel(s.(frames := frames, success := false)), ParseResult(false, 0, s.next), v)
  }

  /** `mkResult`: the result's `next` counts the advance twice. */
  function MkResult<T>(s: State, advance: nat, v: T): Step<T> {
    var next := s.next + advance;
    Step(PopLevel(s.(next := next)), ParseResult(true, advance, next + advance), v)
  }

  /**
   * `parseChar`.  At the end of the input C reads the terminating NUL,
   * which never equals `c`.
   */
  function ParseChar(input: string, s: State, c: char): (r: Step<()>)
    requires Wf(input, s) && s.depth <= NumMaxParseLevels - 2 && c != '\0'
    ensures Balanced(input, s, r.st)
    ensures r.res.success <==> CharAt(input, s.next, c)
    ensures r.st.next == if r.res.success then s.next + 1 else s.next
    ensures r.st.success == (s.success && r.res.success)
  {
    var t := PushLevel(s, CharParser);
    if CharAt(input, t.next, c) then MkResult(t, 1, ()) else MkError(t, CharNotFound, ())
  }

  /** `parseWhiteSpaces`: never fails and skips the whole run of spaces and tabs. */
  function ParseWhiteSpaces(input: string, s: State): (r: Step<()>)
    requires Wf(input, s) && s.depth <= NumMaxParseLevels - 1
    ensures Balanced(input, s, r.st)
    ensures r.res.success && r.st.next == Skip(input, s.next) && r.st.success == s.success
  {
    var t := PushLevel(s, WhiteSpacesParser);
    MkResult(t, Skip(input, t.next) - t.next, ())
  }

  /** `parseInt`: `sscanf` with `%i%n` on the rest of the input. */
  function ParseInt(input: string, sc: Scanners, s: State): (r: Step<int>)
    requires Wf(input, s) && ScannersOk(sc) && s.depth <= NumMaxParseLevels - 2
    ensures Balanced(input, s, r.st)
    ensures Agrees(r, IntAt(sc, input, s.next))
    ensures r.st.success == (s.success && r.res.success)
    ensures !r.res.success ==> r.st.next == s.next
  {
    var t := PushLevel(s, IntParser);
    match sc.scanInt(input[t.next..])
    case Some(p) => MkResult(t, p.1, p.0)
    case None => MkError(t, IntegerNotParsed, 0)
  }

  /** `parseFloat`: `sscanf` with `%f%n` on the rest of the input. */
  function ParseFloat(input: string, sc: Scanners, s: State): (r: Step<real>)
    requires Wf(input, s) && ScannersOk(sc) && s.depth <= NumMaxParseLevels - 2
    ensures Balanced(input, s, r.st)
    ensures Agrees(r, FloatAt(sc, input, s.next))
    ensures r.st.success == (s.success && r.res.success)
    ensures !r.res.success ==> r.st.next == s.next
  {
    var t := PushLevel(s, FloatParser);
    match sc.scanFloat(input[t.next..])
    case Some(p) => MkResult(t, p.1, p.0)
    case None => MkError(t, FloatNotParsed, 0.0)
  }

  /**
   * A context `c` reached inside a parser that was entered with `s` and
   * has pushed its own frame: the guarantees of `Balanced`, one level
   * deeper.
   */
  ghost predicate Inside(input: string, s: State, c: State) {
    && Wf(input, c)
    && c.depth == s.depth + 1
    && s.next <= c.next
    && (!s.success ==> !c.success)
    && c.maxDepth >= s.maxDepth + 1
  }

  /** A value that is not a non-empty list: reading it never needs the comma probe. */
  predicate Quiet(v: Value) {
    !(v.BlobsValue? && |v.blobs| > 0) && !(v.FoodsValue? && |v.foods| > 0)
  }

  /** No value of `values` is a non-empty list. */
  predicate AllQuiet(values: seq<Value>) {
    |values| == 0 || (Quiet(values[0]) && AllQuiet(values[1..]))
  }

  /**
   * One field of a record: `parseWhiteSpaces`, then the parser of the
   * field.  Only a non-empty list leaves `success` false after succeeding.
   */
  function ParseField(input: string, sc: Scanners, s: State, kind: FieldKind): (r: Step<Value>)
    requires Wf(input, s) && ScannersOk(sc) && s.depth <= NumMaxParseLevels - Height(kind)
    requires kind.Char? ==> kind.c != '\0'
    ensures Balanced(input, s, r.st)
    ensures Fits(kind, r.value)
    ensures r.st.success == (s.success && r.res.success && Quiet(r.value))
    ensures Rank(kind) < 3 ==> r.st.success == (s.success && r.res.success)
    ensures kind.Char? && !r.res.success ==> r.st.next == Skip(input, s.next)
    decreases Rank(kind), 1
  {
    if kind.Char? || kind.Int? || kind.Float? then ParseScalar(input, sc, s, kind)
    else ParseNested(input, sc, s, kind)
  }

  /** The fields read by a single primitive parser: a character, an integer or a float. */
  function ParseScalar(input: string, sc: Scanners, s: State, kind: FieldKind): (r: Step<Value>)
    requires Wf(input, s) && ScannersOk(sc) && s.depth <= NumMaxParseLevels - 2
    requires kind.Char? || kind.Int? || kind.Float?
    requires kind.Char? ==> kind.c != '\0'
    ensures Balanced(input, s, r.st)
    ensures Fits(kind, r.value) && Quiet(r.value)
    ensures r.st.success == (s.success && r.res.success)
    ensures kind.Char? && !r.res.success ==> r.st.next == Skip(input, s.next)
  {
    var w := ParseWhiteSpaces(input, s).st;
    match kind
    case Char(c) =>
      var p := ParseChar(input, w, c);
      Step(p.st, p.res, Mark)
    case Int =>
      var p := ParseInt(input, sc, w);
      Step(p.st, p.res, IntValue(p.value))
    case Float =>
      var p := ParseFloat(input, sc, w);
      Step(p.st, p.res, FloatValue(p.value))
  }

  /** The fields read by a nested parser: a vector or a list. */
  function ParseNested(input: string, sc: Scanners, s: State, kind: FieldKind): (r: Step<Value>)
    requires Wf(input, s) && ScannersOk(sc) && s.depth <= NumMaxParseLevels - Height(kind)
    requires kind.Vector? || kind.BlobList? || kind.FoodList?
    ensures Balanced(input, s, r.st)
    ensures Fits(kind, r.value)
    ensures r.st.success == (s.success && r.res.success && Quiet(r.value))
    ensures Rank(kind) < 3 ==> r.st.success == (s.success && r.res.success)
    decreases Rank(kind), 0
  {
    var w := ParseWhiteSpaces(input, s).st;
    match kind
    case Vector =>
      var p := ParseVec2(input, sc, w);
      Step(p.st, p.res, VectorValue(p.value))
    case BlobList =>
      var p := ParseBlobsList(input, sc, w);
      Step(p.st, p.res, BlobsValue(p.value))
    case FoodList =>
      var p := ParseFoodsOrToxinsList(input, sc, w);
      Step(p.st, p.res, FoodsValue(p.value))
  }

  /**
   * Fields `k`, `k + 1`, ... of the table `fields`, inside the record
   * parser entered with `s0`, from context `c`.  The first field that
   * fails makes the record fail with that field's message; after the last
   * field the record finishes with `mkResult(…, 0)`.  On failure the value
   * holds the fields read before the failure and the one that failed.
   */
  function ParseFields(input: string, sc: Scanners, s0: State, c: State, fields: seq<Field>, level: nat, k: nat): (r: Step<seq<Value>>)
    requires Wf(input, s0) && Inside(input, s0, c) && ScannersOk(sc)
    requires Shaped(fields, level) && Shallow(fields, NumMaxParseLevels - s0.depth) && k <= |fields|
    ensures Balanced(input, s0, r.st)
    ensures r.res.success ==> k + |r.value| == |fields|
    ensures |r.value| <= |fields| - k
    ensures r.st.success == (c.success && r.res.success && AllQuiet(r.value))
    ensures level < 3 ==> r.st.success == (c.success && r.res.success)
    decreases level, |fields| - k + 1
  {
    if k == |fields| then MkResult(c, 0, []) else
    var p := ParseField(input, sc, c, fields[k].kind);
    if !p.res.success then MkError(p.st, fields[k].message, [p.value]) else
    var r := ParseFields(input, sc, s0, p.st, fields, level, k + 1);
    assert ([p.value] + r.value)[1..] == r.value;
    Cons(p.value, r)
  }

  /** The rest of a record, preceded by the value of the field before it. */
  function Cons(v: Value, r: Step<seq<Value>>): Step<seq<Value>> {
    Step(r.st, r.res, [v] + r.value)
  }

  /** The C function that parses each record; it names the record's frame. */
  function ParserOf(rec: Record): Parser {
    match rec
    case Vec2Record => Vec2Parser
    case BlobRecord => BlobParser
    case FoodRecord => FoodOrToxinParser
    case AllRecord => AllParser
  }

  /** A record parser: push its frame, then its fields. */
  function ParseRecord(input: string, sc: Scanners, s: State, rec: Record): (r: Step<seq<Value>>)
    requires Wf(input, s) && ScannersOk(sc) && s.depth <= NumMaxParseLevels - RecordHeight(rec)
    ensures Balanced(input, s, r.st)
    ensures r.res.success ==> |r.value| == |Layout(rec)|
    ensures |r.value| <= |Layout(rec)|
    ensures r.st.success == (s.success && r.res.success && AllQuiet(r.value))
    ensures Level(rec) < 3 ==> r.st.success == (s.success && r.res.success)
    decreases Level(rec), |Layout(rec)| + 2
  {
    var t := PushLevel(s, ParserOf(rec));
    ParseFields(input, sc, s, t, Layout(rec), Level(rec), 0)
  }

  /** `parseVec2`. */
  function ParseVec2(input: string, sc: Scanners, s: State): (r: Step<Vec2>)
    requires Wf(input, s) && ScannersOk(sc) && s.depth <= NumMaxParseLevels - 3
    ensures Balanced(input, s, r.st)
    ensures r.st.success == (s.success && r.res.success)
    decreases 0, |Layout(Vec2Record)| + 3
  {
    var p := ParseRecord(input, sc, s, Vec2Record);
    Step(p.st, p.res, if p.res.success then ToVec2(p.value) else Vec2(0.0, 0.0))
  }

  /** `parseBlob`. */
  function ParseBlob(input: string, sc: Scanners, s: State): (r: Step<Blob>)
    requires Wf(input, s) && ScannersOk(sc) && s.depth <= NumMaxParseLevels - 4
    ensures Balanced(input, s, r.st)
    ensures r.st.success == (s.success && r.res.success)
    decreases 1, |Layout(BlobRecord)| + 3
  {
    var p := ParseRecord(input, sc, s, BlobRecord);
    Step(p.st, p.res, if p.res.success then ToBlob(p.value) else Blob(0, 0, 0, Vec2(0.0, 0.0), 0.0))
  }

  /** `parseFoodOrToxin`. */
  function ParseFoodOrToxin(input: string, sc: Scanners, s: State): (r: Step<FoodOrToxin>)
    requires Wf(input, s) && ScannersOk(sc) && s.depth <= NumMaxParseLevels - 4
    ensures Balanced(input, s, r.st)
    ensures r.st.success == (s.success && r.res.success)
    decreases 1, |Layout(FoodRecord)| + 3
  {
    var p := ParseRecord(input, sc, s, FoodRecord);
    Step(p.st, p.res, if p.res.success then ToFoodOrToxin(p.value) else FoodOrToxin(Vec2(0.0, 0.0), 0.0))
  }

  /** Context `c` is inside a list parser entered with `s0`, and `n` elements are stored. */
  ghost predicate InList(input: string, sc: Scanners, s0: State, c: State, n: nat) {
    && Wf(input, s0) && Inside(input, s0, c) && ScannersOk(sc)
    && s0.depth <= NumMaxParseLevels - 5 && n <= Capacity
  }

  /**
   * The end of a non-empty list: the closing bracket, then `mkResult(…, 0)`
   * for the list parser entered with `s0`.
   */
  function CloseList<T>(input: string, s0: State, c: State, items: T): (r: Step<T>)
    requires Wf(input, s0) && Inside(input, s0, c) && s0.depth <= NumMaxParseLevels - 3
    ensures Balanced(input, s0, r.st)
    ensures r.res.success <==> CharAt(input, c.next, ']')
    ensures r.res.success ==> r.st.next == c.next + 1
    ensures r.value == items && r.st.success == (c.success && r.res.success)
  {
    var close := ParseChar(input, c, ']');
    if !close.res.success then MkError(close.st, ClosingBracket, items)
    else MkResult(close.st, 0, items)
  }

  /**
   * The loop of `parseBlobsList` from context `c`, `n` blobs being
   * already stored; the value holds the blobs it stores.  The model refuses an element that does not fit
   * in the array, where the C code writes past its end.
   */
  function BlobsLoop(input: string, sc: Scanners, s0: State, c: State, n: nat): (r: Step<seq<Blob>>)
    requires InList(input, sc, s0, c, n)
    ensures Balanced(input, s0, r.st) && !r.st.success
    ensures |r.value| <= Capacity - n
    decreases 2, 2 * (|input| - c.next) + 1
  {
    var item := ParseBlob(input, sc, ParseWhiteSpaces(input, c).st);
    if !item.res.success || n == Capacity then
      MkError(item.st, if item.res.success then TooManyElements else BlobElement, [])
    else
    var rest := BlobsAfter(input, sc, s0, item.st, n + 1);
    Step(rest.st, rest.res, [item.value] + rest.value)
  }

  /** After an element: the comma probe, then the next element or the closing bracket. */
  function BlobsAfter(input: string, sc: Scanners, s0: State, c: State, n: nat): (r: Step<seq<Blob>>)
    requires InList(input, sc, s0, c, n)
    ensures Balanced(input, s0, r.st) && !r.st.success
    ensures |r.value| <= Capacity - n
    decreases 2, 2 * (|input| - c.next)
  {
    var comma := ParseField(input, sc, c, Char(','));
    if comma.res.success then BlobsLoop(input, sc, s0, comma.st, n)
    else CloseList(input, s0, comma.st, [])
  }

  /** `parseBlobsList`. */
  function ParseBlobsList(input: string, sc: Scanners, s: State): (r: Step<seq<Blob>>)
    requires Wf(input, s) && ScannersOk(sc) && s.depth <= NumMaxParseLevels - 5
    ensures Balanced(input, s, r.st)
    ensures |r.value| <= Capacity
    ensures r.st.success == (s.success && r.res.success && r.value == [])
    decreases 2, 2 * (|input| - s.next) + 3
  {
    var t := PushLevel(s, BlobsListParser);
    var open := ParseField(input, sc, t, Char('['));
    if !open.res.success then MkError(open.st, OpeningBracket, []) else
    BlobsBody(input, sc, s, open.st)
  }

  /**
   * A blob list after its opening bracket: a clone of the context probes
   * for the closing bracket, and only a successful probe replaces the
   * context; otherwise the elements are read from the original.
   */
  function BlobsBody(input: string, sc: Scanners, s0: State, c: State): (r: Step<seq<Blob>>)
    requires InList(input, sc, s0, c, 0)
    ensures Balanced(input, s0, r.st)
    ensures |r.value| <= Capacity
    ensures r.st.success == (c.success && r.res.success && r.value == [])
    decreases 2, 2 * (|input| - c.next) + 2
  {
    var u := ParseWhiteSpaces(input, c).st;
    var probe := ParseChar(input, Clone(u), ']');
    if probe.res.success then MkResult(probe.st, 0, []) else
    BlobsLoop(input, sc, s0, u, 0)
  }

  /** The loop of `parseFoodsOrToxinsList`; see `BlobsLoop`. */
  function FoodsLoop(input: string, sc: Scanners, s0: State, c: State, n: nat): (r: Step<seq<FoodOrToxin>>)
    requires InList(input, sc, s0, c, n)
    ensures Balanced(input, s0, r.st) && !r.st.success
    ensures |r.value| <= Capacity - n
    decreases 2, 2 * (|input| - c.next) + 1
  {
    var item := ParseFoodOrToxin(input, sc, ParseWhiteSpaces(input, c).st);
    if !item.res.success || n == Capacity then
      MkError(item.st, if item.res.success then TooManyElements else FoodElement, [])
    else
    var rest := FoodsAfter(input, sc, s0, item.st, n + 1);
    Step(rest.st, rest.res, [item.value] + rest.value)
  }

  /** After an element: the comma probe, then the next element or the closing bracket. */
  function FoodsAfter(input: string, sc: Scanners, s0: State, c: State, n: nat): (r: Step<seq<FoodOrToxin>>)
    requires InList(input, sc, s0, c, n)
    ensures Balanced(input, s0, r.st) && !r.st.success
    ensures |r.value| <= Capacity - n
    decreases 2, 2 * (|input| - c.next)
  {
    var comma := ParseField(input, sc, c, Char(','));
    if comma.res.success then FoodsLoop(input, sc, s0, comma.st, n)
    else CloseList(input, s0, comma.st, [])
  }

  /** `parseFoodsOrToxinsList`: no `parseWhiteSpaces` before the empty-list probe. */
  function ParseFoodsOrToxinsList(input: string, sc: Scanners, s: State): (r: Step<seq<FoodOrToxin>>)
    requires Wf(input, s) && ScannersOk(sc) && s.depth <= NumMaxParseLevels - 5
    ensures Balanced(input, s, r.st)
    ensures |r.value| <= Capacity
    ensures r.st.success == (s.success && r.res.success && r.value == [])
    decreases 2, 2 * (|input| - s.next) + 3
  {
    var t := PushLevel(s, FoodsOrToxinsListParser);
    var open := ParseField(input, sc, t, Char('['));
    if !open.res.success then MkError(open.st, OpeningBracket, []) else
    FoodsBody(input, sc, s, open.st)
  }

  /** As `BlobsBody`, but the probe comes straight after the opening bracket, with no `parseWhiteSpaces`. */
  function FoodsBody(input: string, sc: Scanners, s0: State, c: State): (r: Step<seq<FoodOrToxin>>)
    requires InList(input, sc, s0, c, 0)
    ensures Balanced(input, s0, r.st)
    ensures |r.value| <= Capacity
    ensures r.st.success == (c.success && r.res.success && r.value == [])
    decreases 2, 2 * (|input| - c.next) + 2
  {
    var probe := ParseChar(input, Clone(c), ']');
    if probe.res.success then MkResult(probe.st, 0, []) else
    FoodsLoop(input, sc, s0, c, 0)
  }

  /*
   * Agreement with the reference grammar.  Each lemma states that a parser
   * succeeds exactly when the grammar recognises the text at the context's
   * position, and then ends where the grammar ends with the value the
   * grammar gives.  The lemmas recurse as the parsers do.
   */

  lemma {:induction false} FieldAgrees(input: string, sc: Scanners, s: State, kind: FieldKind)
    requires Wf(input, s) && ScannersOk(sc) && s.depth <= NumMaxParseLevels - Height(kind)
    requires kind.Char? ==> kind.c != '\0'
    ensures Agrees(ParseField(input, sc, s, kind), FieldAt(sc, input, s.next, kind))
    decreases Rank(kind), 1
  {
    if !(kind.Char? || kind.Int? || kind.Float?) {
      NestedAgrees(input, sc, s, kind);
    }
  }

  lemma {:induction false} NestedAgrees(input: string, sc: Scanners, s: State, kind: FieldKind)
    requires Wf(input, s) && ScannersOk(sc) && s.depth <= NumMaxParseLevels - Height(kind)
    requires kind.Vector? || kind.BlobList? || kind.FoodList?
    ensures Agrees(ParseNested(input, sc, s, kind), FieldAt(sc, input, s.next, kind))
    decreases Rank(kind), 0
  {
    var w := ParseWhiteSpaces(input, s).st;
    match kind
    case Vector => Vec2Agrees(input, sc, w);
    case BlobList => BlobsListAgrees(input, sc, w);
    case FoodList => FoodsListAgrees(input, sc, w);
  }

  lemma {:induction false} FieldsAgree(input: string, sc: Scanners, s0: State, c: State, fields: seq<Field>, level: nat, k: nat)
    requires Wf(input, s0) && Inside(input, s0, c) && ScannersOk(sc)
    requires Shaped(fields, level) && Shallow(fields, NumMaxParseLevels - s0.depth) && k <= |fields|
    ensures Agrees(ParseFields(input, sc, s0, c, fields, level, k), FieldsAt(sc, input, c.next, fields, level, k))
    decreases level, |fields| - k + 1
  {
    if k < |fields| {
      FieldAgrees(input, sc, c, fields[k].kind);
      var p := ParseField(input, sc, c, fields[k].kind);
      if p.res.success {
        FieldsAgree(input, sc, s0, p.st, fields, level, k + 1);
      }
    }
  }

  lemma {:induction false} RecordAgrees(input: string, sc: Scanners, s: State, rec: Record)
    requires Wf(input, s) && ScannersOk(sc) && s.depth <= NumMaxParseLevels - RecordHeight(rec)
    ensures Agrees(ParseRecord(input, sc, s, rec), RecordAt(sc, input, s.next, rec))
    decreases Level(rec), |Layout(rec)| + 2
  {
    FieldsAgree(input, sc, s, PushLevel(s, ParserOf(rec)), Layout(rec), Level(rec), 0);
  }

  lemma {:induction false} Vec2Agrees(input: string, sc: Scanners, s: State)
    requires Wf(input, s) && ScannersOk(sc) && s.depth <= NumMaxParseLevels - 3
    ensures Agrees(ParseVec2(input, sc, s), Vec2At(sc, input, s.next))
    decreases 0, |Layout(Vec2Record)| + 3
  {
    RecordAgrees(input, sc, s, Vec2Record);
  }

  lemma {:induction false} BlobAgrees(input: string, sc: Scanners, s: State)
    requires Wf(input, s) && ScannersOk(sc) && s.depth <= NumMaxParseLevels - 4
    ensures Agrees(ParseBlob(input, sc, s), BlobAt(sc, input, s.next))
    decreases 1, |Layout(BlobRecord)| + 3
  {
    RecordAgrees(input, sc, s, BlobRecord);
  }

  lemma {:induction false} FoodAgrees(input: string, sc: Scanners, s: State)
    requires Wf(input, s) && ScannersOk(sc) && s.depth <= NumMaxParseLevels - 4
    ensures Agrees(ParseFoodOrToxin(input, sc, s), FoodAt(sc, input, s.next))
    decreases 1, |Layout(FoodRecord)| + 3
  {
    RecordAgrees(input, sc, s, FoodRecord);
  }

  lemma {:induction false} BlobsLoopAgrees(input: string, sc: Scanners, s0: State, c: State, n: nat)
    requires InList(input, sc, s0, c, n)
    ensures Agrees(BlobsLoop(input, sc, s0, c, n), BlobItemsAt(sc, input, c.next, n))
    decreases 2, 2 * (|input| - c.next) + 1
  {
    var w := ParseWhiteSpaces(input, c).st;
    BlobAgrees(input, sc, w);
    var item := ParseBlob(input, sc, w);
    if item.res.success && n < Capacity {
      BlobsAfterAgrees(input, sc, s0, item.st, n + 1);
      ConsAgrees(item, BlobAt(sc, input, w.next), BlobsAfter(input, sc, s0, item.st, n + 1),
        BlobsAfterAt(sc, input, item.st.next, n + 1));
    }
  }

  /** An element followed by the rest of its list. */
  lemma ConsAgrees<T>(item: Step<T>, g: Parsed<T>, rest: Step<seq<T>>, h: Parsed<seq<T>>)
    requires Agrees(item, g) && Agrees(rest, h) && g.Parsed?
    ensures Agrees(Step(rest.st, rest.res, [item.value] + rest.value),
                   if h.NoParse? then NoParse else Parsed([g.value] + h.value, h.end))
  {
  }

  lemma {:induction false} BlobsAfterAgrees(input: string, sc: Scanners, s0: State, c: State, n: nat)
    requires InList(input, sc, s0, c, n)
    ensures Agrees(BlobsAfter(input, sc, s0, c, n), BlobsAfterAt(sc, input, c.next, n))
    decreases 2, 2 * (|input| - c.next)
  {
    FieldAgrees(input, sc, c, Char(','));
    var comma := ParseField(input, sc, c, Char(','));
    if comma.res.success {
      BlobsLoopAgrees(input, sc, s0, comma.st, n);
    }
  }

  lemma {:induction false} BlobsListAgrees(input: string, sc: Scanners, s: State)
    requires Wf(input, s) && ScannersOk(sc) && s.depth <= NumMaxParseLevels - 5
    ensures Agrees(ParseBlobsList(input, sc, s), BlobsListAt(sc, input, s.next))
    decreases 2, 2 * (|input| - s.next) + 3
  {
    var t := PushLevel(s, BlobsListParser);
    FieldAgrees(input, sc, t, Char('['));
    var open := ParseField(input, sc, t, Char('['));
    if open.res.success {
      BlobsBodyAgrees(input, sc, s, open.st);
    }
  }

  lemma {:induction false} BlobsBodyAgrees(input: string, sc: Scanners, s0: State, c: State)
    requires InList(input, sc, s0, c, 0)
    ensures Agrees(BlobsBody(input, sc, s0, c), BlobsBodyAt(sc, input, c.next))
    decreases 2, 2 * (|input| - c.next) + 2
  {
    var u := ParseWhiteSpaces(input, c).st;
    if !ParseChar(input, Clone(u), ']').res.success {
      BlobsLoopAgrees(input, sc, s0, u, 0);
    }
  }

  lemma {:induction false} FoodsLoopAgrees(input: string, sc: Scanners, s0: State, c: State, n: nat)
    requires InList(input, sc, s0, c, n)
    ensures Agrees(FoodsLoop(input, sc, s0, c, n), FoodItemsAt(sc, input, c.next, n))
    decreases 2, 2 * (|input| - c.next) + 1
  {
    var w := ParseWhiteSpaces(input, c).st;
    FoodAgrees(input, sc, w);
    var item := ParseFoodOrToxin(input, sc, w);
    if item.res.success && n < Capacity {
      FoodsAfterAgrees(input, sc, s0, item.st, n + 1);
      ConsAgrees(item, FoodAt(sc, input, w.next), FoodsAfter(input, sc, s0, item.st, n + 1),
        FoodsAfterAt(sc, input, item.st.next, n + 1));
    }
  }

  lemma {:induction false} FoodsAfterAgrees(input: string, sc: Scanners, s0: State, c: State, n: nat)
    requires InList(input, sc, s0, c, n)
    ensures Agrees(FoodsAfter(input, sc, s0, c, n), FoodsAfterAt(sc, input, c.next, n))
    decreases 2, 2 * (|input| - c.next)
  {
    FieldAgrees(input, sc, c, Char(','));
    var comma := ParseField(input, sc, c, Char(','));
    if comma.res.success {
      FoodsLoopAgrees(input, sc, s0, comma.st, n);
    }
  }

  lemma {:induction false} FoodsListAgrees(input: string, sc: Scanners, s: State)
    requires Wf(input, s) && ScannersOk(sc) && s.depth <= NumMaxParseLevels - 5
    ensures Agrees(ParseFoodsOrToxinsList(input, sc, s), FoodsListAt(sc, input, s.next))
    decreases 2, 2 * (|input| - s.next) + 3
  {
    var t := PushLevel(s, FoodsOrToxinsListParser);
    FieldAgrees(input, sc, t, Char('['));
    var open := ParseField(input, sc, t, Char('['));
    if open.res.success {
      FoodsBodyAgrees(input, sc, s, open.st);
    }
  }

  lemma {:induction false} FoodsBodyAgrees(input: string, sc: Scanners, s0: State, c: State)
    requires InList(input, sc, s0, c, 0)
    ensures Agrees(FoodsBody(input, sc, s0, c), FoodsBodyAt(sc, input, c.next))
    decreases 2, 2 * (|input| - c.next) + 2
  {
    if !ParseChar(input, Clone(c), ']').res.success {
      FoodsLoopAgrees(input, sc, s0, c, 0);
    }
  }

  /** Every value is quiet exactly when each of them is. */
  lemma {:induction false} AllQuietEach(values: seq<Value>)
    ensures AllQuiet(values) <==> forall j :: 0 <= j < |values| ==> Quiet(values[j])
    decreases |values|
  {
    if |values| > 0 {
      AllQuietEach(values[1..]);
      assert forall j :: 1 <= j < |values| ==> values[j] == values[1..][j - 1];
    }
  }

  /**
   * What `parseAll` leaves in the `VisibleGameState`: each list whose
   * parser was called, holding the elements stored before any failure
   * (`None` for a list never reached, whose array keeps its old contents).
   */
  datatype Written = Written(
    ownBlobs: Option<seq<Blob>>, otherBlobs: Option<seq<Blob>>,
    foods: Option<seq<FoodOrToxin>>, toxins: Option<seq<FoodOrToxin>>)

  function BlobsWritten(values: seq<Value>, k: nat): Option<seq<Blob>> {
    if k < |values| && values[k].BlobsValue? then Some(values[k].blobs) else None
  }

  function FoodsWritten(values: seq<Value>, k: nat): Option<seq<FoodOrToxin>> {
    if k < |values| && values[k].FoodsValue? then Some(values[k].foods) else None
  }

  /** The four arrays after the fields `values` of the whole message were read. */
  function ToWritten(values: seq<Value>): Written {
    Written(BlobsWritten(values, 1), BlobsWritten(values, 3), FoodsWritten(values, 5), FoodsWritten(values, 7))
  }

  /** The arrays after a complete message. */
  function Complete(g: Snapshot): Written {
    Written(Some(g.ownBlobs), Some(g.otherBlobs), Some(g.foods), Some(g.toxins))
  }

  /** Four lists, all present and empty. */
  const AllEmpty: Written := Written(Some([]), Some([]), Some([]), Some([]))

  /**
   * `parseAll`.  Its result agrees with the grammar, and the context keeps
   * `success` only when all four lists are empty: the comma probe that
   * ends a non-empty list fails for good.
   */
  function ParseAll(input: string, sc: Scanners, s: State): (r: Step<Written>)
    requires Wf(input, s) && ScannersOk(sc) && s.depth <= NumMaxParseLevels - RecordHeight(AllRecord)
    ensures Balanced(input, s, r.st)
    ensures r.st.success <==> s.success && r.res.success && r.value == AllEmpty
    decreases Level(AllRecord), |Layout(AllRecord)| + 3
  {
    var p := ParseRecord(input, sc, s, AllRecord);
    if p.res.success then
      RecordAgrees(input, sc, s, AllRecord);
      CompleteFields(p.value);
      Step(p.st, p.res, ToWritten(p.value))
    else Step(p.st, p.res, ToWritten(p.value))
  }

  /** The fields of a complete message are its four lists, and it is quiet exactly when they are empty. */
  lemma CompleteFields(values: seq<Value>)
    requires |values| == |Layout(AllRecord)| && FitAll(Layout(AllRecord), 0, values)
    ensures ToWritten(values) == Complete(ToSnapshot(values))
    ensures AllQuiet(values) <==> ToWritten(values) == AllEmpty
  {
    AllQuietEach(values);
    assert Fits(Char('('), values[0]) && Fits(Char(','), values[2]) && Fits(Char(','), values[4]);
    assert Fits(Char(','), values[6]) && Fits(Char(')'), values[8]);
    assert Fits(BlobList, values[1]) && Fits(BlobList, values[3]);
    assert Fits(FoodList, values[5]) && Fits(FoodList, values[7]);
  }

  /** `parseAll` agrees with the grammar: it succeeds exactly on a whole message, and then holds its four lists. */
  lemma ParseAllAgrees(input: string, sc: Scanners, s: State)
    requires Wf(input, s) && ScannersOk(sc) && s.depth <= NumMaxParseLevels - RecordHeight(AllRecord)
    ensures var r := ParseAll(input, sc, s); var g := AllAt(sc, input, s.next);
      && (r.res.success <==> g.Parsed?)
      && (g.Parsed? ==> r.st.next == g.end && r.value == Complete(g.value))
  {
    RecordAgrees(input, sc, s, AllRecord);
    var p := ParseRecord(input, sc, s, AllRecord);
    if p.res.success {
      CompleteFields(p.value);
    }
  }

  /** `pwb_parseAll`: the result of `parseAll`, not the context's `success`. */
  function PwbParseAll(input: string, sc: Scanners, s: State): (r: (bool, State, Written))
    requires Wf(input, s) && ScannersOk(sc) && s.depth <= NumMaxParseLevels - RecordHeight(AllRecord)
    ensures r.0 <==> AllAt(sc, input, s.next).Parsed?
    ensures r.0 ==> r.2 == Complete(AllAt(sc, input, s.next).value)
  {
    ParseAllAgrees(input, sc, s);
    var p := ParseAll(input, sc, s);
    (p.res.success, p.st, p.value)
  }

  /**
   * One block of `pwb_printErrors`: the message if it is not `nullptr`, the
   * parser's name and the input from the parser's location on.  Index 10
   * and beyond lie past the frame array.
   */
  datatype Entry = Entry(message: Cell<Option<Message>>, name: Cell<Parser>, location: Cell<nat>) | OutOfBounds

  function EntryOf(frames: seq<Slot>, i: nat): Entry {
    if i < |frames| then Entry(frames[i].errorMessage, frames[i].name, frames[i].location) else OutOfBounds
  }

  /**
   * `pwb_printErrors`: nothing after a successful parse, otherwise one
   * block for each of the first `numMaxParserInvocations` frames.
   */
  function ErrorReport(s: State): (report: seq<Entry>)
    ensures s.success ==> report == []
    ensures !s.success ==> |report| == if s.maxDepth < 0 then 0 else s.maxDepth
    ensures forall i :: 0 <= i < |report| ==> (report[i].OutOfBounds? <==> i >= |s.frames|)
    ensures forall i :: 0 <= i < |report| && i < |s.frames| ==>
      report[i] == Entry(s.frames[i].errorMessage, s.frames[i].name, s.frames[i].location)
  {
    if s.success || s.maxDepth <= 0 then [] else seq(s.maxDepth, i requires 0 <= i => EntryOf(s.frames, i))
  }
}
