/**
  The template token codec: `DashboardTemplate.EncodeBase64` and `DecodeDashboardBase64`.
  A token is the standard padded base64 text of the template's JSON text followed by one
  newline byte. Decoding undoes the base64 layer, parses the JSON and runs the validator; the
  first stage that fails decides the error, and the JSON and validation diagnostics reach the
  caller unchanged.
*/
module TemplateCodec {
  import opened Wrappers
  import opened Templates
  import opened Validation
  import Base64
  import Decimal

  type byte = Base64.byte

  /** What the JSON parser makes of a byte string: a template, or its syntax diagnostic. */
  datatype ParseResult = Parsed(template: DashboardTemplate) | SyntaxError(message: string)

  /**
    The JSON layer, which this model leaves abstract: `marshal` writes a template as JSON text
    (or reports why it cannot), and `parse` reads a template back, ignoring unknown keys and
    leaving missing fields at their zero values.
  */
  datatype JsonCodec = JsonCodec(
    marshal: DashboardTemplate -> Result<seq<byte>, string>,
    parse: seq<byte> -> ParseResult)

  /** The byte that the JSON stream encoder writes after each value. */
  const Newline: byte := 10

  /**
    The token of a template. It fails only when the JSON layer does, with that layer's error;
    otherwise the token is base64 text that decodes to the JSON text and a newline.
  */
  function EncodeBase64(json: JsonCodec, t: DashboardTemplate): (r: Result<string, string>)
    ensures r.Ok? <==> json.marshal(t).Ok?
    ensures r.Err? ==> r.error == json.marshal(t).error
    ensures r.Ok? ==> Base64.IsEncodingShape(r.value)
    ensures r.Ok? ==> Base64.Decode(r.value) == Ok(json.marshal(t).value + [Newline])
  {
    match json.marshal(t)
    case Err(e) => Err(e)
    case Ok(text) =>
      var payload := text + [Newline];
      Base64.DecodeEncode(payload);
      Ok(Base64.Encode(payload))
  }

  /** The three ways a token can be rejected, in the order the stages run. */
  datatype DecodeError =
    | MalformedBase64(offset: nat)
    | MalformedJson(message: string)
    | InvalidTemplate(error: ValidationError)

  /**
    The template a token stands for. Every template it returns passes the validator, and is
    what the JSON parser makes of the bytes that the token is the base64 text of.
  */
  function DecodeDashboardBase64(json: JsonCodec, limits: ColumnLimits, token: string)
    : (r: Result<DashboardTemplate, DecodeError>)
    ensures r.Ok? ==> Validate(r.value, limits) == Pass
    ensures r.Ok? ==> exists payload :: Base64.Encode(payload) == token && json.parse(payload) == Parsed(r.value)
  {
    match Base64.Decode(token)
    case Err(corrupt) => Err(MalformedBase64(corrupt.offset))
    case Ok(payload) =>
      match json.parse(payload)
      case SyntaxError(message) => Err(MalformedJson(message))
      case Parsed(t) =>
        match Validate(t, limits)
        case Fail(e) => Err(InvalidTemplate(e))
        case Pass =>
          Base64.EncodeDecode(token);
          Ok(t)
  }

  /**
    The text of the decode error: the base64 layer's offset report, the JSON parser's own
    diagnostic, or the validator's message.
  */
  function ErrorMessage(e: DecodeError): string {
    match e
    case MalformedBase64(offset) => "illegal base64 data at input byte " + Decimal.NatToString(offset)
    case MalformedJson(message) => message
    case InvalidTemplate(error) => Message(error)
  }

  /** A token that is not the base64 text of any byte string fails at the first stage. */
  lemma NonTokenRejected(json: JsonCodec, limits: ColumnLimits, token: string)
    requires forall b :: Base64.Encode(b) != token
    ensures DecodeDashboardBase64(json, limits, token).Err?
    ensures DecodeDashboardBase64(json, limits, token).error.MalformedBase64?
  {
    Base64.DecodeSucceedsIff(token);
  }

  /** A JSON syntax error is reported as is, before any validation. */
  lemma SyntaxErrorPassedThrough(json: JsonCodec, limits: ColumnLimits, payload: seq<byte>, message: string)
    requires json.parse(payload) == SyntaxError(message)
    ensures DecodeDashboardBase64(json, limits, Base64.Encode(payload)) == Err(MalformedJson(message))
    ensures ErrorMessage(DecodeDashboardBase64(json, limits, Base64.Encode(payload)).error) == message
  {
    Base64.DecodeEncode(payload);
  }

  /** A well-formed payload whose template fails validation is rejected with the validator's error. */
  lemma ValidationErrorPassedThrough(json: JsonCodec, limits: ColumnLimits, payload: seq<byte>,
                                     t: DashboardTemplate, e: ValidationError)
    requires json.parse(payload) == Parsed(t) && Validate(t, limits) == Fail(e)
    ensures DecodeDashboardBase64(json, limits, Base64.Encode(payload)) == Err(InvalidTemplate(e))
    ensures ErrorMessage(DecodeDashboardBase64(json, limits, Base64.Encode(payload)).error) == Message(e)
  {
    Base64.DecodeEncode(payload);
  }

  /** A payload that parses to a valid template is accepted, and decodes to that template. */
  lemma ValidPayloadAccepted(json: JsonCodec, limits: ColumnLimits, payload: seq<byte>, t: DashboardTemplate)
    requires json.parse(payload) == Parsed(t) && Validate(t, limits) == Pass
    ensures DecodeDashboardBase64(json, limits, Base64.Encode(payload)) == Ok(t)
  {
    Base64.DecodeEncode(payload);
  }

  /** A structurally valid payload with an empty name is rejected with the name error. */
  lemma EmptyNameRejected(json: JsonCodec, limits: ColumnLimits, payload: seq<byte>, t: DashboardTemplate)
    requires json.parse(payload) == Parsed(t) && t.base.name == ""
    ensures DecodeDashboardBase64(json, limits, Base64.Encode(payload)) == Err(InvalidTemplate(InvalidName))
    ensures ErrorMessage(DecodeDashboardBase64(json, limits, Base64.Encode(payload)).error)
         == "invalid template name"
  {
    NameCheckedFirst(t, limits);
    ValidationErrorPassedThrough(json, limits, payload, t, InvalidName);
    assert ErrorMessage(InvalidTemplate(InvalidName)) == Message(InvalidName) == "invalid template name";
  }

  /**
    The round trip: when the JSON layer reads back what it wrote (the trailing newline being
    whitespace), decoding the token of a valid template gives that template.
  */
  lemma DecodeEncodeBase64(json: JsonCodec, limits: ColumnLimits, t: DashboardTemplate)
    requires json.marshal(t).Ok? && json.parse(json.marshal(t).value + [Newline]) == Parsed(t)
    requires Validate(t, limits) == Pass
    ensures EncodeBase64(json, t).Ok?
    ensures DecodeDashboardBase64(json, limits, EncodeBase64(json, t).value) == Ok(t)
  {
  }

  /** Decoding accepts exactly the tokens of payloads that parse to valid templates. */
  lemma DecodeAcceptsIff(json: JsonCodec, limits: ColumnLimits, token: string)
    ensures DecodeDashboardBase64(json, limits, token).Ok?
        <==> exists payload :: Base64.Encode(payload) == token && json.parse(payload).Parsed?
                               && Validate(json.parse(payload).template, limits) == Pass
  {
    if payload :| Base64.Encode(payload) == token && json.parse(payload).Parsed?
                  && Validate(json.parse(payload).template, limits) == Pass {
      Base64.DecodeEncode(payload);
    }
  }
}
