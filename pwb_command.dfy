/**
 * `pwb_toString` of BotCpp/BotCpp/pwb.h, the bot's reply, and how the
 * middleware's `parseBotResponse` reads it back.  `sprintf`'s `%.2f` is a
 * parameter.
 */
module PwbCommand {
  import opened Wrappers
  import opened PwbData
  import Go = GoShared
  import opened Middleware

  /** The label `pwb_toString` writes for each action. */
  function Label(a: BotActionType): string {
    match a
    case BatNone => "None"
    case BatSplit => "Split"
    case BatThrow => "Throw"
  }

  /** `pwb_toString`: `(<label>, (<x>, <y>))`, each coordinate formatted by `%.2f`. */
  function ToString(cmd: BotCommand, fixed2: real -> string): (s: string)
  {
    "(" + Label(cmd.botActionType) + ", (" + fixed2(cmd.target.x) + ", " + fixed2(cmd.target.y) + "))"
  }

  /** Text that the middleware neither deletes nor splits nor changes by lower-casing. */
  predicate Plain(s: string) {
    forall i :: 0 <= i < |s| ==> !Deleted(s[i]) && s[i] != ',' && !('A' <= s[i] <= 'Z')
  }

  /** Plain text comes through cleaning unchanged. */
  lemma {:induction false} CleanPlain(s: string)
    requires Plain(s)
    ensures Clean(s) == s
    decreases |s|
  {
    if |s| > 0 {
      var c := [s[0]];
      assert ToLower(c) == c;
      assert Strip(c) == c by {
        assert !Deleted(c[0]) && c[1..] == [];
      }
      CleanAppend(c, s[1..]);
      CleanPlain(s[1..]);
      assert c + s[1..] == s;
    }
  }

  /** The label the middleware sees, lower-cased: `none`, `split` or `throw`. */
  function Word(a: BotActionType): string {
    match a
    case BatNone => "none"
    case BatSplit => "split"
    case BatThrow => "throw"
  }

  lemma CleanLabel(a: BotActionType)
    ensures Clean(Label(a)) == Word(a)
  {
    var w := Word(a);
    assert ToLower(Label(a)) == w;
    assert forall i :: 0 <= i < |w| ==> 'a' <= w[i] <= 'z';
    assert Plain(w);
    CleanPlain(w);
    assert ToLower(w) == w;
    assert Clean(Label(a)) == Strip(w);
  }

  /** The punctuation of `pwb_toString` vanishes, except the commas. */
  lemma CleanPunctuation()
    ensures Clean("(") == "" && Clean(", (") == "," && Clean(", ") == "," && Clean("))") == ""
  {
    assert ToLower("(") == "(" && ToLower(", (") == ", (" && ToLower(", ") == ", " && ToLower("))") == "))";
  }

  /**
   * What remains of the reply after `parseBotResponse` lower-cases it and
   * deletes its blanks and brackets: the label and the two coordinates,
   * separated by commas.
   */
  lemma Cleaned(cmd: BotCommand, fixed2: real -> string)
    requires Plain(fixed2(cmd.target.x)) && Plain(fixed2(cmd.target.y))
    ensures Clean(ToString(cmd, fixed2))
      == Word(cmd.botActionType) + "," + fixed2(cmd.target.x) + "," + fixed2(cmd.target.y)
  {
    var fx, fy := fixed2(cmd.target.x), fixed2(cmd.target.y);
    var l := Label(cmd.botActionType);
    CleanPlain(fx);
    CleanPlain(fy);
    CleanLabel(cmd.botActionType);
    CleanPunctuation();
    CleanAppend("(", l);
    CleanAppend("(" + l, ", (");
    CleanAppend("(" + l + ", (", fx);
    CleanAppend("(" + l + ", (" + fx, ", ");
    CleanAppend("(" + l + ", (" + fx + ", ", fy);
    CleanAppend("(" + l + ", (" + fx + ", " + fy, "))");
  }

  /**
   * The reply round trip: the middleware recovers the action of every
   * command `pwb_toString` writes, and its target whenever both formatted
   * coordinates parse as floats.  The action numbers agree between the C
   * enum and the Go constants.
   */
  lemma ReplyRoundTrip(cmd: BotCommand, fixed2: real -> string, parseFloat: string -> Option<real>)
    requires Plain(fixed2(cmd.target.x)) && Plain(fixed2(cmd.target.y))
    ensures var r := ParseBotResponse(ToString(cmd, fixed2), parseFloat);
      var px, py := parseFloat(fixed2(cmd.target.x)), parseFloat(fixed2(cmd.target.y));
      && r.0.action == Ordinal(cmd.botActionType)
      && (r.1 <==> px.Some? && py.Some?)
      && (r.1 ==> r.0.target == Go.Vec2(px.value, py.value))
  {
    var fx, fy := fixed2(cmd.target.x), fixed2(cmd.target.y);
    var w := Word(cmd.botActionType);
    Cleaned(cmd, fixed2);
    assert CommaFree(w);
    assert [w, fx, fy][1..] == [fx, fy] && [fx, fy][1..] == [fy];
    assert Join([fx, fy]) == fx + "," + fy;
    assert w + "," + fx + "," + fy == Join([w, fx, fy]);
    SplitJoin([w, fx, fy]);
    MatchCommandCases(w);
    assert Contains("none", "none") by { assert "none"[..4] == "none"; }
    assert [w, fx, fy][1..] == [fx, fy];
  }

  /** The C and Go numbering of the actions is the same. */
  lemma ActionNumbers()
    ensures Ordinal(BatNone) == Go.BatNone && Ordinal(BatThrow) == Go.BatThrow && Ordinal(BatSplit) == Go.BatSplit
  {
  }
}
