# House price prediction service — verified model of its core

The service wraps a pre-trained regressor behind three HTTP operations. This
project models the part of `main.py` that carries real invariants:

- the **feature encoder**, which turns a twelve-field property record into the
  twelve-slot numeric vector the regressor was trained on: numbers are copied,
  yes/no fields are looked up (case-insensitively) in `{yes: 1, no: 0}`, the
  furnishing status in `{furnished: 2, semi-furnished: 1, unfurnished: 0}`, and
  any unrecognised text silently becomes 0;
- **single prediction**: encode, run the regressor, wrap the price; any failure
  becomes one HTTP 400 error carrying the failure's message;
- **batch prediction**: the same for a list of records, in input order, stopping
  at the first failure, which replaces the whole answer by one error;
- the **model metadata** endpoint, whose feature list must name the encoder's
  slots in order.

Modules: `Wrappers` (Option and Result), `Text` (ASCII lowercasing),
`Encoding` (records, lookup tables, the encoder, the feature names),
`Handlers` (the regressor as a function parameter, the two prediction handlers
and the metadata).

The regressor is a parameter `model: FeatureVector -> Result<real, string>`: a
price, or the message of the exception it raised. Feature vectors are
`seq<real>`; the integer fields enter them through `as real`, as the array of
floats built from the Python list holds them.

## Model

| member | source | states |
|---|---|---|
| `Text.AsciiLower` | main.py:77-84 | a capital becomes the same letter in lower case, every other character is left alone, and the result is never a capital |
| `Text.AsciiLowerEqualIff` | main.py:77-84 | two characters lowercase alike exactly when they are equal or one is a capital and the other its lower-case letter |
| `Text.Lower` | main.py:77-84 | lowercasing keeps the length and lowercases every character in place |
| `Text.LowerEqualIff` | main.py:77-84 | two strings have the same lowercase form if and only if, position by position, their characters are equal or a capital and its lower-case letter |
| `Encoding.BinaryCode` | main.py:77-83 | a yes/no field encodes to 1 exactly when its lowercase form is "yes", and to 0 otherwise |
| `Encoding.FurnishingCode` | main.py:65-69 | the furnishing status encodes to 2 exactly for "furnished", 1 exactly for "semi-furnished", and 0 for everything else |
| `Encoding.Encode` | main.py:72-85 | the vector always has twelve entries, the six yes/no slots hold 0 or 1 and the furnishing slot holds 0, 1 or 2 |
| `Encoding.NumericFieldsPassThrough` | main.py:73-82 | area, bedrooms, bathrooms, stories and parking are copied unchanged into slots 0-3 and 9 |
| `Encoding.UnknownBinaryEncodesAsNo` | main.py:62 | a yes/no value missing from the table encodes exactly as "no" |
| `Encoding.UnknownFurnishingEncodesAsUnfurnished` | main.py:84 | a furnishing status missing from the table encodes exactly as "unfurnished" |
| `Encoding.EncodeIgnoresCase` | main.py:77-84 | records that differ only in the letter case of their categorical fields encode to the same vector |
| `Encoding.FeatureNamesMatchSlots` | main.py:142 | the twelve published feature names are distinct and the i-th one names the field the encoder puts in slot i |
| `Encoding.SampleRecordEncoding` | main.py:72-85 | a sample listing, with the numbers the test form suggests as placeholders (main.py:241-297), encodes to `[7420, 4, 1, 3, 1, 0, 0, 0, 1, 2, 1, 2]` |
| `Encoding.LenientSpellingsEncoding` | main.py:77-84 | "YES", "Yes", "yEs" count as yes while "", "1" and "Yes " silently count as no |
| `Handlers.Predict` | main.py:94-113 | a prediction succeeds exactly when the regressor succeeds on the encoded record, carries its price with no confidence or interval, and otherwise is one 400 error carrying the regressor's message |
| `Handlers.PredictIgnoresCase` | main.py:96-104 | single prediction gives the same answer for records differing only in letter case |
| `Handlers.BatchPredict` | main.py:115-135 | the batch succeeds exactly when every record's prediction succeeds, and then holds one output per input in input order, each the single prediction of its record; otherwise it is the error of the first failing record, with no partial list |
| `Handlers.GetModelInfo` | main.py:137-143 | the metadata reports a regression problem and its feature list has the encoder's length and names slot i at position i |

## Left out

- Loading the regressor from its file at start-up and the regressor itself: it is a function parameter.
- The one-row array built around the vector and the indexing of the regressor's answer: the vector is a sequence and the regressor returns one price.
- Floating-point arithmetic: prices and the area are `real`, the integer fields are converted exactly.
- Text.Lower: lowercases ASCII letters only, while Python's `str.lower` also lowercases non-ASCII letters. The two still agree on which values hit a table key: the only non-ASCII character Python lowercases to plain ASCII is the Kelvin sign (U+212A, to `k`), and no key contains a `k`; every other non-ASCII character keeps a non-ASCII character in its lowercase form (U+0130 becomes `i` followed by a combining dot), so it matches no key under either lowercasing.
- Request validation by the schema layer (types and presence of fields) and the routing of the framework: records arrive already typed. The schema puts no bounds on the numbers (main.py:30-42), so negative counts or a non-positive area reach the encoder and are copied through; only the HTML test form, which is not modelled, sets minimums (main.py:245-297).
- The HTTP exception machinery: an error is the value `HttpError(400, message)`.
- Logging, the health-check endpoint (a constant payload) and the HTML test form.
- Handlers.GetModelInfo: the model type string "Linear Regression" is a constant and is not tied to the regressor actually loaded.
