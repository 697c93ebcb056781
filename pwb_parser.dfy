/**
 * The parser of BotCpp/BotCpp/pwb.h as the C code runs it: one
 * `ParseContext` object threaded through every parser and updated in
 * place, results returned alongside.  Every method is proved to leave the
 * context exactly as the matching function of `PwbSpec` describes, so the
 * properties proved there hold of this code.
 */
module PwbParser {
  import opened Wrappers
  import opened PwbData
  import opened PwbGrammar
  import Spec = PwbSpec

  /** `ParseContext`: the input, the read offset, the sticky flag and the frame stack. */
  class ParseContext {
    const input: string
    var next: nat
    var success: bool
    const parserInvocations: array<Spec.Slot>
    var numParserInvocations: int
    var numMaxParserInvocations: int

    /** The context as a value. */
    ghost function Abs(): Spec.State
      reads this, parserInvocations
    {
      Spec.State(next, success, parserInvocations[..], numParserInvocations, numMaxParserInvocations)
    }

    ghost predicate Valid()
      reads this, parserInvocations
    {
      parserInvocations.Length == Spec.NumMaxParseLevels && Spec.Wf(input, Abs())
    }

    /** `pwb_mkContext`. */
    constructor (input: string)
      ensures Valid() && this.input == input && Abs() == Spec.MkContext()
      ensures fresh(parserInvocations)
    {
      this.input := input;
      next := 0;
      success := true;
      parserInvocations := new Spec.Slot[Spec.NumMaxParseLevels](_ => Spec.Garbage);
      numParserInvocations := 0;
      numMaxParserInvocations := 0;
      new;
      assert parserInvocations[..] == Spec.MkContext().frames;
    }

    /**
     * `mkContext`: copies the scalars and `NUM_MAX_PARSE_LEVELS` pointer
     * words of the frames, one word at a time.
     */
    constructor Clone(other: ParseContext)
      requires other.Valid()
      ensures Valid() && input == other.input && Abs() == Spec.Clone(other.Abs())
      ensures fresh(parserInvocations)
    {
      var a := new Spec.Slot[Spec.NumMaxParseLevels](_ => Spec.Garbage);
      var w := 0;
      while w < Spec.NumMaxParseLevels
        invariant 0 <= w <= Spec.NumMaxParseLevels
        invariant forall i :: 0 <= i < a.Length ==> a[i] == Spec.CopiedSlot(other.parserInvocations[i], i, w)
      {
        var i := w / Spec.WordsPerInvocation;
        var src := other.parserInvocations[i];
        a[i] := match w % Spec.WordsPerInvocation
          case 0 => a[i].(name := src.name)
          case 1 => a[i].(location := src.location)
          case _ => a[i].(errorMessage := src.errorMessage);
        w := w + 1;
      }
      input := other.input;
      next := other.next;
      success := other.success;
      parserInvocations := a;
      numParserInvocations := other.numParserInvocations;
      numMaxParserInvocations := other.numMaxParserInvocations;
      new;
      assert parserInvocations[..] == Spec.Clone(other.Abs()).frames;
    }

    /** `*parseContext = other`: the struct assignment copies every frame. */
    method Assign(other: ParseContext)
      requires Valid() && other.Valid() && other.input == input
      requires other.parserInvocations != parserInvocations
      modifies this, parserInvocations
      ensures Valid() && Abs() == other.Abs()
    {
      next := other.next;
      success := other.success;
      forall i | 0 <= i < Spec.NumMaxParseLevels {
        parserInvocations[i] := other.parserInvocations[i];
      }
      numParserInvocations := other.numParserInvocations;
      numMaxParserInvocations := other.numMaxParserInvocations;
      assert parserInvocations[..] == other.parserInvocations[..];
    }

    /** `pushLevel`. */
    method PushLevel(name: Parser)
      requires Valid() && numParserInvocations < Spec.NumMaxParseLevels
      modifies this, parserInvocations
      ensures Valid() && Abs() == Spec.PushLevel(old(Abs()), name)
    {
      parserInvocations[numParserInvocations] := Spec.MkParserInvocation(name, next);
      numParserInvocations := numParserInvocations + 1;
      numMaxParserInvocations := numMaxParserInvocations + 1;
    }

    /**
     * The context between a parser's work and its `popLevel`: the flag may
     * already be false while the counters are still equal.
     */
    ghost predicate Popping()
      reads this, parserInvocations
    {
      && parserInvocations.Length == Spec.NumMaxParseLevels
      && 0 < numParserInvocations <= numMaxParserInvocations
      && (success ==> numParserInvocations == numMaxParserInvocations)
      && next <= |input|
    }

    /** `popLevel`. */
    method PopLevel()
      requires Popping()
      modifies this
      ensures Valid() && Abs() == Spec.PopLevel(old(Abs()))
    {
      numParserInvocations := numParserInvocations - 1;
      if success {
        numMaxParserInvocations := numMaxParserInvocations - 1;
      }
    }

    /** `mkError`. */
    method MkError(message: Message) returns (r: Spec.ParseResult)
      requires Valid() && 0 < numParserInvocations < Spec.NumMaxParseLevels
      modifies this, parserInvocations
      ensures Valid()
      ensures var e := Spec.MkError(old(Abs()), message, ()); Abs() == e.st && r == e.res
    {
      var slot := parserInvocations[numParserInvocations];
      parserInvocations[numParserInvocations] := slot.(errorMessage := Spec.Known(Some(message)));
      success := false;
      r := Spec.ParseResult(false, 0, next);
      PopLevel();
    }

    /** `mkResult`. */
    method MkResult(advance: nat) returns (r: Spec.ParseResult)
      requires Valid() && 0 < numParserInvocations && next + advance <= |input|
      modifies this
      ensures Valid()
      ensures var e := Spec.MkResult(old(Abs()), advance, ()); Abs() == e.st && r == e.res
    {
      var n := next + advance;
      next := n;
      r := Spec.ParseResult(true, advance, n + advance);
      PopLevel();
    }

    /**
     * `pwb_printErrors`: after a failed parse, the input for the header
     * line on `stderr`, and one block for each `i < numMaxParserInvocations`
     * read from frame `i`, whether or not that frame exists.
     */
    method PrintErrors() returns (header: Option<string>, report: seq<Spec.Entry>)
      requires Valid()
      ensures header.Some? <==> !success
      ensures header.Some? ==> header.value == input
      ensures report == Spec.ErrorReport(Abs())
    {
      header := None;
      report := [];
      if success {
        return;
      }
      header := Some(input);
      var i := 0;
      while i < numMaxParserInvocations
        invariant 0 <= i && |report| == i
        invariant i <= if numMaxParserInvocations < 0 then 0 else numMaxParserInvocations
        invariant forall j :: 0 <= j < i ==> report[j] == Spec.EntryOf(parserInvocations[..], j)
        decreases numMaxParserInvocations - i
      {
        var entry := Spec.OutOfBounds;
        if i < parserInvocations.Length {
          var slot := parserInvocations[i];
          entry := Spec.Entry(slot.errorMessage, slot.name, slot.location);
        }
        report := report + [entry];
        i := i + 1;
      }
      assert |report| == |Spec.ErrorReport(Abs())|;
    }
  }

  /** `parseChar`; the terminating NUL the C code reads at the end never equals `c`. */
  method ParseChar(ctx: ParseContext, c: char) returns (r: Spec.ParseResult)
    requires ctx.Valid() && ctx.numParserInvocations <= Spec.NumMaxParseLevels - 2 && c != '\0'
    modifies ctx, ctx.parserInvocations
    ensures ctx.Valid()
    ensures var e := Spec.ParseChar(ctx.input, old(ctx.Abs()), c); ctx.Abs() == e.st && r == e.res
  {
    ctx.PushLevel(CharParser);
    if ctx.next < |ctx.input| && ctx.input[ctx.next] == c {
      r := ctx.MkResult(1);
    } else {
      r := ctx.MkError(CharNotFound);
    }
  }

  /** `parseWhiteSpaces`: a runner moves over the spaces and tabs. */
  method ParseWhiteSpaces(ctx: ParseContext) returns (r: Spec.ParseResult)
    requires ctx.Valid() && ctx.numParserInvocations <= Spec.NumMaxParseLevels - 1
    modifies ctx, ctx.parserInvocations
    ensures ctx.Valid()
    ensures var e := Spec.ParseWhiteSpaces(ctx.input, old(ctx.Abs())); ctx.Abs() == e.st && r == e.res
  {
    ctx.PushLevel(WhiteSpacesParser);
    var advance := 0;
    var runner := ctx.next;
    while runner < |ctx.input| && IsBlank(ctx.input[runner])
      invariant ctx.next <= runner <= |ctx.input| && advance == runner - ctx.next
      invariant Skip(ctx.input, ctx.next) == Skip(ctx.input, runner)
      decreases |ctx.input| - runner
    {
      advance := advance + 1;
      runner := runner + 1;
    }
    r := ctx.MkResult(advance);
  }

  /** `parseInt`: `sscanf` with `%i%n` from `next`. */
  method ParseInt(ctx: ParseContext, sc: Scanners) returns (r: Spec.ParseResult, value: int)
    requires ctx.Valid() && ScannersOk(sc) && ctx.numParserInvocations <= Spec.NumMaxParseLevels - 2
    modifies ctx, ctx.parserInvocations
    ensures ctx.Valid()
    ensures var e := Spec.ParseInt(ctx.input, sc, old(ctx.Abs())); ctx.Abs() == e.st && r == e.res && value == e.value
  {
    ctx.PushLevel(IntParser);
    match sc.scanInt(ctx.input[ctx.next..])
    case Some(p) =>
      value := p.0;
      r := ctx.MkResult(p.1);
    case None =>
      value := 0;
      r := ctx.MkError(IntegerNotParsed);
  }

  /** `parseFloat`: `sscanf` with `%f%n` from `next`. */
  method ParseFloat(ctx: ParseContext, sc: Scanners) returns (r: Spec.ParseResult, value: real)
    requires ctx.Valid() && ScannersOk(sc) && ctx.numParserInvocations <= Spec.NumMaxParseLevels - 2
    modifies ctx, ctx.parserInvocations
    ensures ctx.Valid()
    ensures var e := Spec.ParseFloat(ctx.input, sc, old(ctx.Abs())); ctx.Abs() == e.st && r == e.res && value == e.value
  {
    ctx.PushLevel(FloatParser);
    match sc.scanFloat(ctx.input[ctx.next..])
    case Some(p) =>
      value := p.0;
      r := ctx.MkResult(p.1);
    case None =>
      value := 0.0;
      r := ctx.MkError(FloatNotParsed);
  }

  /** `parseWhiteSpaces` then `parseChar`: a character field of a record. */
  method SpacedChar(ctx: ParseContext, sc: Scanners, c: char) returns (r: Spec.ParseResult)
    requires ctx.Valid() && ScannersOk(sc) && ctx.numParserInvocations <= Spec.NumMaxParseLevels - 2 && c != '\0'
    modifies ctx, ctx.parserInvocations
    ensures ctx.Valid()
    ensures var e := Spec.ParseField(ctx.input, sc, old(ctx.Abs()), Char(c)); ctx.Abs() == e.st && r == e.res
  {
    var ws := ParseWhiteSpaces(ctx);
    r := ParseChar(ctx, c);
  }

  /** `parseWhiteSpaces` then `parseInt`: an integer field of a record. */
  method SpacedInt(ctx: ParseContext, sc: Scanners) returns (r: Spec.ParseResult, value: int)
    requires ctx.Valid() && ScannersOk(sc) && ctx.numParserInvocations <= Spec.NumMaxParseLevels - 2
    modifies ctx, ctx.parserInvocations
    ensures ctx.Valid()
    ensures var e := Spec.ParseField(ctx.input, sc, old(ctx.Abs()), Int);
      ctx.Abs() == e.st && r == e.res && e.value == IntValue(value)
  {
    var ws := ParseWhiteSpaces(ctx);
    r, value := ParseInt(ctx, sc);
  }

  /** `parseWhiteSpaces` then `parseFloat`: a float field of a record. */
  method SpacedFloat(ctx: ParseContext, sc: Scanners) returns (r: Spec.ParseResult, value: real)
    requires ctx.Valid() && ScannersOk(sc) && ctx.numParserInvocations <= Spec.NumMaxParseLevels - 2
    modifies ctx, ctx.parserInvocations
    ensures ctx.Valid()
    ensures var e := Spec.ParseField(ctx.input, sc, old(ctx.Abs()), Float);
      ctx.Abs() == e.st && r == e.res && e.value == FloatValue(value)
  {
    var ws := ParseWhiteSpaces(ctx);
    r, value := ParseFloat(ctx, sc);
  }

  /** Field `k` of the table `fields` can be read from context `c` inside the record parser entered with `s0`. */
  ghost predicate Reading(input: string, sc: Scanners, s0: Spec.State, c: Spec.State, fields: seq<Field>, level: nat, k: nat) {
    && Spec.Wf(input, s0) && Spec.Inside(input, s0, c) && ScannersOk(sc)
    && Shaped(fields, level) && Shallow(fields, Spec.NumMaxParseLevels - s0.depth) && k <= |fields|
  }

  /**
   * What `Spec.ParseFields` gives for fields `k`, `k + 1`, ... when
   * `Reading` holds; the record loop below keeps it as its goal.
   */
  ghost function Remaining(input: string, sc: Scanners, s0: Spec.State, c: Spec.State, fields: seq<Field>, level: nat, k: nat): Spec.Step<seq<Value>> {
    if Reading(input, sc, s0, c, fields, level, k) then Spec.ParseFields(input, sc, s0, c, fields, level, k)
    else Spec.Step(c, Spec.ParseResult(false, 0, c.next), [])
  }

  /**
   * A record line in terms of its field: a failing field ends the record
   * with the line's message, a successful one leaves the lines after it.
   */
  lemma FieldsStep(input: string, sc: Scanners, s0: Spec.State, c: Spec.State, fields: seq<Field>, level: nat, k: nat)
    requires Reading(input, sc, s0, c, fields, level, k) && k < |fields|
    ensures var p := Spec.ParseField(input, sc, c, fields[k].kind);
      && (p.res.success ==> Reading(input, sc, s0, p.st, fields, level, k + 1))
      && Remaining(input, sc, s0, c, fields, level, k)
         == if p.res.success then Spec.Cons(p.value, Remaining(input, sc, s0, p.st, fields, level, k + 1))
            else Spec.MkError(p.st, fields[k].message, [p.value])
  {
  }

  lemma AppendAssoc<T>(a: seq<T>, b: seq<T>, c: seq<T>)
    ensures a + (b + c) == (a + b) + c
  {
  }

  /** One line of a record parser: `parseWhiteSpaces`, then the parser of a field that is not a list. */
  method SpacedField(ctx: ParseContext, sc: Scanners, kind: FieldKind) returns (r: Spec.ParseResult, value: Value)
    requires ctx.Valid() && ScannersOk(sc) && Rank(kind) < 3 && (kind.Char? ==> kind.c != '\0')
    requires ctx.numParserInvocations <= Spec.NumMaxParseLevels - Height(kind)
    modifies ctx, ctx.parserInvocations
    ensures ctx.Valid()
    ensures var e := Spec.ParseField(ctx.input, sc, old(ctx.Abs()), kind);
      ctx.Abs() == e.st && r == e.res && value == e.value
    decreases Rank(kind), 1
  {
    match kind
    case Char(c) =>
      r := SpacedChar(ctx, sc, c);
      value := Mark;
    case Int =>
      var i;
      r, i := SpacedInt(ctx, sc);
      value := IntValue(i);
    case Float =>
      var f;
      r, f := SpacedFloat(ctx, sc);
      value := FloatValue(f);
    case Vector =>
      var ws := ParseWhiteSpaces(ctx);
      var v;
      r, v := ParseVec2(ctx, sc);
      value := VectorValue(v);
  }

  /**
   * One line of a record parser: the field `k` of the table, and
   * `mkError` with that field's message when it fails.
   */
  method RecordLine(ctx: ParseContext, sc: Scanners, ghost s0: Spec.State, fields: seq<Field>, level: nat, k: nat)
      returns (r: Spec.ParseResult, value: Value)
    requires ctx.Valid() && Reading(ctx.input, sc, s0, ctx.Abs(), fields, level, k) && k < |fields| && level < 3
    modifies ctx, ctx.parserInvocations
    ensures ctx.Valid()
    ensures var e := Remaining(ctx.input, sc, s0, old(ctx.Abs()), fields, level, k);
      if r.success then
        && Reading(ctx.input, sc, s0, ctx.Abs(), fields, level, k + 1)
        && e == Spec.Cons(value, Remaining(ctx.input, sc, s0, ctx.Abs(), fields, level, k + 1))
      else ctx.Abs() == e.st && r == e.res
    decreases level, 2
  {
    r, value := SpacedField(ctx, sc, fields[k].kind);
    if !r.success {
      r := ctx.MkError(fields[k].message);
    }
  }

  /**
   * One turn of the loop of `RecordLines`: the field `k`, with the values
   * read so far and the result the whole record will have.  A successful
   * line leaves one more field read; a failing one is that result.
   */
  method RecordStep(ctx: ParseContext, sc: Scanners, ghost s0: Spec.State, fields: seq<Field>, level: nat, k: nat,
                    ghost goal: Spec.Step<seq<Value>>, values: seq<Value>)
      returns (r: Spec.ParseResult, values': seq<Value>)
    requires ctx.Valid() && Reading(ctx.input, sc, s0, ctx.Abs(), fields, level, k) && k < |fields| && level < 3
    requires var rest := Remaining(ctx.input, sc, s0, ctx.Abs(), fields, level, k);
      goal == Spec.Step(rest.st, rest.res, values + rest.value)
    modifies ctx, ctx.parserInvocations
    ensures ctx.Valid()
    ensures if r.success then
        && Reading(ctx.input, sc, s0, ctx.Abs(), fields, level, k + 1)
        && var rest := Remaining(ctx.input, sc, s0, ctx.Abs(), fields, level, k + 1);
           goal == Spec.Step(rest.st, rest.res, values' + rest.value)
      else ctx.Abs() == goal.st && r == goal.res
    decreases level, 3
  {
    var v;
    r, v := RecordLine(ctx, sc, s0, fields, level, k);
    values' := values + [v];
    if r.success {
      AppendAssoc(values, [v], Remaining(ctx.input, sc, s0, ctx.Abs(), fields, level, k + 1).value);
    }
  }

  /**
   * The lines of a record parser after its `pushLevel`, from the first
   * field to the last; the first field that fails ends them.
   */
  method RecordLines(ctx: ParseContext, sc: Scanners, ghost s0: Spec.State, fields: seq<Field>, level: nat)
      returns (r: Spec.ParseResult, values: seq<Value>)
    requires ctx.Valid() && Reading(ctx.input, sc, s0, ctx.Abs(), fields, level, 0) && level < 3
    modifies ctx, ctx.parserInvocations
    ensures ctx.Valid()
    ensures var e := Remaining(ctx.input, sc, s0, old(ctx.Abs()), fields, level, 0);
      if r.success then
        && Reading(ctx.input, sc, s0, ctx.Abs(), fields, level, |fields|)
        && e == Spec.Step(Remaining(ctx.input, sc, s0, ctx.Abs(), fields, level, |fields|).st,
                          Remaining(ctx.input, sc, s0, ctx.Abs(), fields, level, |fields|).res,
                          values)
      else ctx.Abs() == e.st && r == e.res
    decreases level, 4
  {
    ghost var goal := Remaining(ctx.input, sc, s0, ctx.Abs(), fields, level, 0);
    values := [];
    assert values + goal.value == goal.value;
    r := Spec.ParseResult(true, 0, ctx.next);
    var k := 0;
    while k < |fields|
      invariant ctx.Valid() && Reading(ctx.input, sc, s0, ctx.Abs(), fields, level, k)
      invariant var rest := Remaining(ctx.input, sc, s0, ctx.Abs(), fields, level, k);
        goal == Spec.Step(rest.st, rest.res, values + rest.value)
      decreases |fields| - k
    {
      var p;
      p, values := RecordStep(ctx, sc, s0, fields, level, k, goal, values);
      if !p.success {
        r := p;
        return;
      }
      k := k + 1;
    }
    assert Remaining(ctx.input, sc, s0, ctx.Abs(), fields, level, k).value == [];
    assert values + [] == values;
  }

  /**
   * `parseVec2`, `parseBlob` and `parseFoodOrToxin`: push the record's
   * frame, then each line of the C function in turn, as listed in the
   * record's field table; the first field that fails ends the record
   * with that field's message, and `mkResult` ends a complete one.
   */
  method ParseRecord(ctx: ParseContext, sc: Scanners, rec: Record) returns (r: Spec.ParseResult, values: seq<Value>)
    requires ctx.Valid() && ScannersOk(sc) && Level(rec) < 3
    requires ctx.numParserInvocations <= Spec.NumMaxParseLevels - RecordHeight(rec)
    modifies ctx, ctx.parserInvocations
    ensures ctx.Valid()
    ensures var e := Spec.ParseRecord(ctx.input, sc, old(ctx.Abs()), rec);
      ctx.Abs() == e.st && r == e.res && (r.success ==> values == e.value)
    decreases Level(rec), 5
  {
    ghost var s0 := ctx.Abs();
    ctx.PushLevel(Spec.ParserOf(rec));
    r, values := RecordLines(ctx, sc, s0, Layout(rec), Level(rec));
    if r.success {
      r := ctx.MkResult(0);
    }
  }

  /** `parseVec2`. */
  method ParseVec2(ctx: ParseContext, sc: Scanners) returns (r: Spec.ParseResult, v: Vec2)
    requires ctx.Valid() && ScannersOk(sc) && ctx.numParserInvocations <= Spec.NumMaxParseLevels - 3
    modifies ctx, ctx.parserInvocations
    ensures ctx.Valid()
    ensures var e := Spec.ParseVec2(ctx.input, sc, old(ctx.Abs()));
      ctx.Abs() == e.st && r == e.res && v == e.value
    decreases 0, 6
  {
    var values;
    r, values := ParseRecord(ctx, sc, Vec2Record);
    v := if r.success then ToVec2(values) else Vec2(0.0, 0.0);
  }

  /** `parseBlob`. */
  method ParseBlob(ctx: ParseContext, sc: Scanners) returns (r: Spec.ParseResult, b: Blob)
    requires ctx.Valid() && ScannersOk(sc) && ctx.numParserInvocations <= Spec.NumMaxParseLevels - 4
    modifies ctx, ctx.parserInvocations
    ensures ctx.Valid()
    ensures var e := Spec.ParseBlob(ctx.input, sc, old(ctx.Abs()));
      ctx.Abs() == e.st && r == e.res && b == e.value
  {
    var values;
    r, values := ParseRecord(ctx, sc, BlobRecord);
    b := if r.success then ToBlob(values) else Blob(0, 0, 0, Vec2(0.0, 0.0), 0.0);
  }

  /** `parseFoodOrToxin`. */
  method ParseFoodOrToxin(ctx: ParseContext, sc: Scanners) returns (r: Spec.ParseResult, f: FoodOrToxin)
    requires ctx.Valid() && ScannersOk(sc) && ctx.numParserInvocations <= Spec.NumMaxParseLevels - 4
    modifies ctx, ctx.parserInvocations
    ensures ctx.Valid()
    ensures var e := Spec.ParseFoodOrToxin(ctx.input, sc, old(ctx.Abs()));
      ctx.Abs() == e.st && r == e.res && f == e.value
  {
    var values;
    r, values := ParseRecord(ctx, sc, FoodRecord);
    f := if r.success then ToFoodOrToxin(values) else FoodOrToxin(Vec2(0.0, 0.0), 0.0);
  }
}
