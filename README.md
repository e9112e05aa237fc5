# Dashboard template validation and token codec

This project models the dashboard template core of the chrome service backend. A dashboard
template is a named widget layout on a responsive grid. It has one layout for each of the four
screen-size variants `sm`, `md`, `lg` and `xl`. The model covers three pieces.

- The validator `DashboardTemplate.IsValid`. It stops at the first failure, in this order:
  - an empty name gives "invalid template name";
  - an empty display name gives "invalid template display name";
  - a grid item whose X lies beyond its variant's column bound gives "invalid grid item, layout
    variant <v>, coordinate X must be less than <limit>, current value is <x>". The layouts are
    taken in the order `sm`, `md`, `lg`, `xl`, and each layout in item order.
- The token codec `EncodeBase64` / `DecodeDashboardBase64`. A token is the standard padded
  base64 text (section 4 of RFC 4648) of the template's JSON text, followed by the newline that
  Go's JSON stream encoder writes. Decoding has three stages, in order: base64, JSON, validation.
  The first stage that fails decides the error. JSON and validation messages reach the caller
  unchanged.
- The fixtures of `rest/models/DashboardTemplate_test.go`:
  - the golden token (`matchTestString`) is computed as the encoding of the test template's
    JSON text;
  - the two short malformed tokens are computed to be the encodings of their payloads;
  - each validation case gets the error the test expects.

Modules:
- `Wrappers` holds Option, Result and Outcome.
- `Templates` holds the record types.
- `Decimal` holds numerals, as `%d` writes them.
- `Base64` holds the RFC 4648 codec and its round trips.
- `Validation` holds the validator.
- `TemplateCodec` holds the token pipeline.
- `Fixtures` holds the test vectors and test cases.

The JSON layer is a parameter, `TemplateCodec.JsonCodec`: a serialiser and a parser, given as
functions. A fixture that depends on what Go's `encoding/json` does with a payload states that
behaviour as its precondition. The column bounds of `md`, `lg` and `xl` are a parameter,
`Validation.ColumnLimits`. Only the `sm` bound, 1, is fixed.

The rejection rule is `x > limit` (`Validation.OutOfBounds`). This direction is a choice the
test leaves open. The test rejects the widget at `x = 2` against the `sm` bound 1 (lines 48-71,
94), and it never tries an item at `x = 1`. Read literally, the message wording "coordinate X
must be less than 1" points to the other rule, `x >= limit`. The model follows the fixture at
line 13 instead. That token encodes a template meant to be valid, and its `sm` items carry X
values 0 and 1, which a `>=` rule would reject.

## Model

| member | source | states |
|---|---|---|
| Validation.OutOfBounds | rest/models/DashboardTemplate_test.go:91-94 | the rejection rule: an item is out of bounds when its X is strictly greater than the bound, so X = 2 is rejected against the `sm` bound 1 (`SmOffenderMessage`) |
| Validation.CheckLayout | rest/models/DashboardTemplate_test.go:91-94 | fails exactly with the layout's variant, its bound and the X of its first offender (`LayoutFailure`), and passes only when every item is within the bound (`LayoutSuccess`) |
| Validation.Validate | rest/models/DashboardTemplate_test.go:81-104 | passes exactly when both names are set and every item is within bounds (`ValidateAcceptsIff`); an empty name is reported first and an empty display name second (`NameCheckedFirst`, `DisplayNameCheckedSecond`); a grid-item error is exactly the first offender of the first offending variant (`GridItemErrorIsFirstOffender`, `FirstOffenderIsReported`) |
| Validation.Message | rest/models/DashboardTemplate_test.go:110 | different errors have different texts (`MessageInjective`), and the error for sm, bound 1 and X 2 has the text of line 94 (`SmOffenderText`) |
| Validation.FirstOutOfBounds | rest/models/DashboardTemplate_test.go:91-94 | the position it finds is beyond the bound and every earlier item is within; it finds none exactly when every item is within |
| Validation.CheckVariants | rest/models/DashboardTemplate_test.go:91-94 | the layouts pass exactly when each variant's layout passes; a failure is the error of some variant whose earlier variants all pass |
| Validation.ValidateAcceptsIff | rest/models/DashboardTemplate_test.go:95-100 | a template passes exactly when both names are non-empty and every grid item of every layout lies within its variant's bound |
| Validation.NameCheckedFirst | rest/models/DashboardTemplate_test.go:81-85 | an empty name fails with "invalid template name", whatever the display name and layouts hold |
| Validation.DisplayNameCheckedSecond | rest/models/DashboardTemplate_test.go:86-90 | with a name, an empty display name fails with "invalid template display name", whatever the layouts hold |
| Validation.LayoutFailure | rest/models/DashboardTemplate_test.go:91-94 | a failing layout check names its own variant and bound, and the X of an item that is beyond the bound with every earlier item within |
| Validation.LayoutSuccess | rest/models/DashboardTemplate_test.go:95-100 | a passing layout check means every item of the layout is within the bound |
| Validation.VariantsFailure | rest/models/DashboardTemplate_test.go:91-94 | a failure of the layout checks is a grid-item error, its variant's own check gives that error, and every earlier variant passes |
| Validation.FirstFailingVariantDecides | rest/models/DashboardTemplate_test.go:91-94 | when variant v fails and every earlier variant passes, the layout checks report v's error |
| Validation.GridItemErrorIsFirstOffender | rest/models/DashboardTemplate_test.go:91-94 | a reported grid-item error implies both names are set, the limit is the variant's bound, the X belongs to the first offending item of that layout, and all earlier variants are within bounds |
| Validation.FirstOffenderIsReported | rest/models/DashboardTemplate_test.go:91-94 | conversely, with both names set, the first offending item of the first offending variant is the one reported, with its variant, bound and X |
| Validation.SmOffenderMessage | rest/models/DashboardTemplate_test.go:91-94 | with both names set, an `sm` item at X = 2 preceded only by items within bound 1 fails with the exact text the test expects |
| Validation.SmOffenderText | rest/models/DashboardTemplate_test.go:94 | the message of the error for variant sm, bound 1 and X 2 is the literal the test compares against |
| Validation.MessageInjective | rest/models/DashboardTemplate_test.go:110 | callers tell errors apart by text alone: two errors with the same message are the same error |
| Decimal.NatToString | rest/models/DashboardTemplate_test.go:94 | the numeral of a natural number is digits only, with a leading zero only for zero |
| Decimal.IntToString | rest/models/DashboardTemplate_test.go:94 | the numeral of an integer is a non-empty run of digits, with a leading `-` exactly for negative values |
| Decimal.NumeralValueOfIntToString | rest/models/DashboardTemplate_test.go:94 | reading back an integer's numeral gives the integer, or its magnitude after the `-` when it is negative |
| Decimal.NumeralValueOfNatToString | rest/models/DashboardTemplate_test.go:94 | reading back a natural number's numeral gives the number |
| Decimal.NatToStringInjective | rest/models/DashboardTemplate_test.go:94 | different natural numbers have different numerals |
| Decimal.IntToStringInjective | rest/models/DashboardTemplate_test.go:94 | different integers have different numerals |
| Base64.Symbol | rest/models/DashboardTemplate_test.go:17 | every 6-bit value maps to a symbol of the standard alphabet |
| Base64.SymbolValueOfSymbol | rest/models/DashboardTemplate_test.go:17 | a 6-bit value is recovered from its symbol |
| Base64.SymbolOfSymbolValue | rest/models/DashboardTemplate_test.go:17 | a symbol is recovered from its value |
| Base64.Encode | rest/models/DashboardTemplate_test.go:124-128 | an encoding is four characters per started group of three bytes, each a symbol or padding |
| Base64.Decode | rest/models/DashboardTemplate_test.go:130-134 | an accepted text is a multiple of four long; a rejection names a quartet offset inside the text |
| Base64.DecodeEncode | rest/models/DashboardTemplate_test.go:130-134 | every byte sequence decodes back from its encoding |
| Base64.EncodeDecode | rest/models/DashboardTemplate_test.go:130-134 | decoding is strict: a text that decodes is exactly the encoding of what it decodes to |
| Base64.DecodeSucceedsIff | rest/models/DashboardTemplate_test.go:130-134 | a text decodes exactly when it is the encoding of some byte sequence |
| Base64.EncodeAppend | rest/models/DashboardTemplate_test.go:17 | content of whole three-byte groups encodes independently of what follows it |
| TemplateCodec.EncodeBase64 | rest/models/DashboardTemplate_test.go:124-128 | encoding fails exactly when serialisation does, with its error; a token has the base64 shape and decodes to the JSON text followed by a newline |
| TemplateCodec.DecodeDashboardBase64 | rest/models/DashboardTemplate_test.go:130-152 | a decoded template passes the validator and is what the parser makes of the bytes the token encodes |
| TemplateCodec.ErrorMessage | rest/models/DashboardTemplate_test.go:136-152 | the text callers see: a JSON syntax error yields the parser's diagnostic unchanged (`SyntaxErrorPassedThrough`), a validation error yields the validator's message (`ValidationErrorPassedThrough`), and an empty name yields "invalid template name" (`EmptyNameRejected`) |
| TemplateCodec.NonTokenRejected | rest/models/DashboardTemplate_test.go:130-131 | a text that encodes no byte sequence fails at the base64 stage |
| TemplateCodec.SyntaxErrorPassedThrough | rest/models/DashboardTemplate_test.go:148-152 | a JSON syntax error is returned before any validation, with the parser's message unchanged |
| TemplateCodec.ValidationErrorPassedThrough | rest/models/DashboardTemplate_test.go:136-146 | a payload that parses to an invalid template fails with the validator's error and message |
| TemplateCodec.ValidPayloadAccepted | rest/models/DashboardTemplate_test.go:130-134 | the token of a payload that parses to a valid template decodes to that template |
| TemplateCodec.EmptyNameRejected | rest/models/DashboardTemplate_test.go:136-140 | the token of a payload that parses to a template with an empty name fails with "invalid template name" |
| TemplateCodec.DecodeEncodeBase64 | rest/models/DashboardTemplate_test.go:124-134 | when the parser reads back what the serialiser wrote, decoding the token of a valid template gives the template |
| TemplateCodec.DecodeAcceptsIff | rest/models/DashboardTemplate_test.go:130-152 | decoding succeeds exactly on the tokens of payloads that parse to valid templates |
| Fixtures.GoldenTokenEncodes | rest/models/DashboardTemplate_test.go:17 | the test template's JSON text plus the newline encodes to the golden token, character for character |
| Fixtures.EncodeTestTemplate | rest/models/DashboardTemplate_test.go:124-128 | when the serialiser writes the test template's JSON text, encoding the template gives the golden token |
| Fixtures.TestTemplateValid | rest/models/DashboardTemplate_test.go:115-122 | the test template, named "test" with every layout absent, passes validation under any column bounds |
| Fixtures.DecodeGoldenToken | rest/models/DashboardTemplate_test.go:130-134 | when the parser reads the golden JSON text back, decoding the golden token succeeds with the test template |
| Fixtures.InvalidEncodedStructEncodes | rest/models/DashboardTemplate_test.go:15 | the payload `{\n    "foo": "bar"\n}` (a newline and a four-space indent before the key, a newline before the brace) encodes to the invalid-structure token of line 15 |
| Fixtures.DecodeInvalidStruct | rest/models/DashboardTemplate_test.go:142-146 | when that object parses to the zero template, decoding its token fails with "invalid template name" |
| Fixtures.InvalidEncodedJsonEncodes | rest/models/DashboardTemplate_test.go:16 | the object with a raw newline in its string literal encodes to the invalid-JSON token |
| Fixtures.DecodeInvalidJson | rest/models/DashboardTemplate_test.go:148-152 | when the parser rejects that object, decoding its token fails with the parser's literal diagnostic |
| Fixtures.InvalidBaseNameCase | rest/models/DashboardTemplate_test.go:20-26 | the template with an empty name and display name "test" fails with "invalid template name", for any configuration |
| Fixtures.InvalidBaseDisplayNameCase | rest/models/DashboardTemplate_test.go:28-35 | the template named "test" with an empty display name fails with "invalid template display name", for any configuration |
| Fixtures.InvalidTemplateConfigCase | rest/models/DashboardTemplate_test.go:48-71 | the template whose `sm` layout is the single widget at X = 2 fails with the grid-item message of the test, whatever the other layouts hold |
| Fixtures.SmItemOnBoundAccepted | rest/models/DashboardTemplate_test.go:13 | a named template whose `sm` layout is one item at X = 1, as in the valid fixture token, passes validation |
| Fixtures.ValidTemplateCase | rest/models/DashboardTemplate_test.go:37-44 | a named template passes whenever its configuration keeps every item within bounds |

## Left out

- The model reproduces the behaviour that `DashboardTemplate_test.go` observes: the check order,
  the exact messages, the token format and the decode order. The Go bodies of `IsValid`,
  `EncodeBase64` and `DecodeDashboardBase64` are not modelled line by line.
- Validation.OutOfBounds: follows the line-13 fixture and accepts an X equal to the bound
  (`Fixtures.SmItemOnBoundAccepted`). Under the literal reading of the message, an `sm` item at
  X = 1 would be rejected with "invalid grid item, layout variant sm, coordinate X must be less
  than 1, current value is 1". The model does not do that.
- The JSON layer (`encoding/json`) is a foreign library. `JsonCodec` is a parameter, and each
  fixture that depends on it takes the parser's or serialiser's behaviour on its payload as a
  precondition.
- How the timestamps are written as RFC 3339 text (`0001-01-01T00:00:00Z`) belongs to the JSON
  layer. Timestamps are opaque integers, and `deletedAt` is an Option.
- `service.BaseTemplates["landingPage"]` and `service.ConvertToJson` are not part of this model.
  The test cases take the configuration as a parameter. The test that owns the golden token
  encodes every layout as `null`, and the model reads an absent layout as the empty sequence.
- The column bounds of `md`, `lg` and `xl` are not evidenced by the test, so they are a
  parameter of the model.
- Width, height and min/max-height checks are not modelled, since nothing evidences them.
- Base64.Decode: the model's decoder is strict and Go's `StdEncoding` is not. Go accepts a final
  quartet whose unused padding bits are not zero: `"Ch=="` decodes to the byte 0x0A there. The
  model rejects such a quartet, because with it a text decodes only when it is the canonical
  encoding of its bytes. Go also skips `\r` and `\n` inside the text, and the model does not.
  No token in the test contains either case. The offset in the model's error is the start of
  the first quartet that fails; Go reports the offending byte.
- Base64.EncodeDecode: holds of the strict decoder only. Under Go, `"Ch=="` decodes, yet it is
  not the encoding of what it decodes to.
- Base64.DecodeSucceedsIff: holds of the strict decoder only. Go also accepts the texts listed
  above, which are not encodings.
- TemplateCodec.NonTokenRejected: holds of the strict decoder only. Under Go, `"Ch=="` passes the
  base64 stage and fails at the JSON stage instead.
- TemplateCodec.DecodeAcceptsIff: holds of the strict decoder only. Under Go, the accepted tokens
  also include the non-canonical texts of payloads that parse to valid templates.
- The two 4 KB fixtures (`validEncodedTemplate`, `invalidEncodedTemplate`, lines 13-14) are not
  spelled out. The test decoding `invalidEncodedTemplate` is covered by
  `TemplateCodec.EmptyNameRejected`, which holds for every payload that parses to a template with
  an empty name.
- Fixtures.DecodeGoldenToken: the test checks only that decoding succeeds with a value of the
  template type. The model proves more, that the result is the test template, under the
  precondition that the parser reads the golden JSON text back as that template.
- The test harness (testify asserts, `reflect.TypeOf`, the case loop) has no counterpart. Each
  case is a lemma.
