/**
 * The value types of the bot-side protocol library (BotCpp/BotCpp/pwb.h):
 * vectors, blobs, foods and toxins, the bot's command, and its two pure
 * constructors.  C `float` values are carried as `real`: the parser never
 * computes with them, it only stores what the scanner returned.
 */
module PwbData {

  /** The capacity of `BlobsArray.data` and `FoodsOrToxinsArray.data`. */
  const Capacity: nat := 2000

  datatype Vec2 = Vec2(x: real, y: real)

  /** `mkVec2`. */
  function MkVec2(x: real, y: real): (v: Vec2)
    ensures v.x == x && v.y == y
  {
    Vec2(x, y)
  }

  /** `enum BotActionType { BatNone, BatThrow, BatSplit }`. */
  datatype BotActionType = BatNone | BatThrow | BatSplit

  /** The value the C compiler gives each enumerator (0, 1, 2 in declaration order). */
  function Ordinal(a: BotActionType): (n: nat)
    ensures n < 3
  {
    match a
    case BatNone => 0
    case BatThrow => 1
    case BatSplit => 2
  }

  datatype BotCommand = BotCommand(botActionType: BotActionType, target: Vec2)

  datatype Blob = Blob(botId: int, teamId: int, blobId: int, position: Vec2, mass: real)

  datatype FoodOrToxin = FoodOrToxin(position: Vec2, mass: real)

  /** `pwb_mkBotCommand`: copies the action and the target unchanged. */
  function MkBotCommand(botActionType: BotActionType, target: Vec2): (c: BotCommand)
    ensures c.botActionType == botActionType && c.target == target
  {
    BotCommand(botActionType, target)
  }

  /** The parser functions, which name the frames they push (their `__FUNCTION__`). */
  datatype Parser =
    | CharParser | WhiteSpacesParser | IntParser | FloatParser
    | Vec2Parser | BlobParser | FoodOrToxinParser
    | BlobsListParser | FoodsOrToxinsListParser | AllParser

  function FunctionName(p: Parser): string {
    match p
    case CharParser => "parseChar"
    case WhiteSpacesParser => "parseWhiteSpaces"
    case IntParser => "parseInt"
    case FloatParser => "parseFloat"
    case Vec2Parser => "parseVec2"
    case BlobParser => "parseBlob"
    case FoodOrToxinParser => "parseFoodOrToxin"
    case BlobsListParser => "parseBlobsList"
    case FoodsOrToxinsListParser => "parseFoodsOrToxinsList"
    case AllParser => "parseAll"
  }

  /**
   * The error messages the parsers store.  `TooManyElements` is the
   * model's own: the C lists have no capacity check.
   */
  datatype Message =
    | CharNotFound | IntegerNotParsed | FloatNotParsed
    | OpeningBracket | ClosingBracket | Comma
    | XValue | YValue | BotIdField | TeamIdField | BlobIdField | BlobPosition | BotMass
    | FoodPosition | FoodMass | BlobElement | FoodElement
    | OwnBlobs | OtherBlobs | Foods | Toxins | TooManyElements

  function Text(m: Message): string {
    match m
    case CharNotFound => "Could not find the char."
    case IntegerNotParsed => "Could not parse the integer."
    case FloatNotParsed => "Could not parse the float."
    case OpeningBracket => "Could not find the opening bracket."
    case ClosingBracket => "Could not find the closing bracket."
    case Comma => "Could not find the comma."
    case XValue => "Could not find the x-value."
    case YValue => "Could not find the y-value."
    case BotIdField => "Could not find the botId."
    case TeamIdField => "Could not find the teamId."
    case BlobIdField => "Could not find the blobId."
    case BlobPosition => "Could not find the position of the blob."
    case BotMass => "Could not find the mass of the bot."
    case FoodPosition => "Could not find the positon of the food."
    case FoodMass => "Could not find the mass of the food."
    case BlobElement => "Could not parse the blob."
    case FoodElement => "Could not parse the food."
    case OwnBlobs => "Could not parse the own blobs."
    case OtherBlobs => "Could not find the other blobs."
    case Foods => "Could not find the foods."
    case Toxins => "Could not find the toxins."
    case TooManyElements => "Too many elements for the array."
  }
}
