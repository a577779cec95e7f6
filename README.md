# kpae: the analysis-query wire encoding, in Dafny

kpae is a Rust client for the KataGo analysis engine. A caller builds a
`KataQuery` with the `KataQueryBuilder` that `derive_builder` generates,
and `KataQueryEncoder::encode` serialises the query with serde and appends
the JSON text to the `BytesMut` buffer that `FramedWrite` sends to the
engine's standard input. This project models that path:

- the wire strings of the three enums: `Player` as `"B"`/`"W"`,
  `WhiteHandicapBonus` as `"0"`/`"N"`/`"N-1"`, and `Rules` in kebab-case;
- serde's two rename rules as string functions on identifiers: camelCase
  for the fields of `KataQuery` and `MoveGroup`, kebab-case for the
  `Rules` variants. The misspelled fields `anaysis_pv_len` and
  `inlcude_ownership_stdev` keep their spelling on the wire;
- the JSON value a query serialises to. It has one member per declared
  field, in declaration order. An unset optional is written as `null`.
  A `(Player, String)` pair is a 2-element array, and `allow_moves` is a
  1-element array;
- `KataQueryBuilder` as a class. It has an optional slot per field and a
  setter per slot. `Build` fails on the first unset field without
  `#[builder(default)]`, and every other unset field becomes `None`;
- `KataQueryEncoder::encode` as a method on a byte-buffer class. It
  appends the serialisation and always returns `Ok`.

Module layout, one module per file:

- `Wrappers`: `Option`, `Result`, and `Outcome` (Rust's `Result<(), E>`).
- `Json`: the JSON value tree, and `Lookup` of a key in an object.
- `Rename`: the camelCase and kebab-case rules, with their round trips
  and injectivity on identifiers.
- `Query`: the query's value types.
- `Fields`: the field enumeration, its declaration order, the Rust
  identifiers, and which fields are required.
- `FieldKeys`: the key of every field.
- `Enums`: the enum wire strings and their parsers.
- `Wire`: the query to JSON.
- `WireDecode`: a reader for that JSON, the partner of the round-trip
  lemmas.
- `Builder`: the builder class and the `Assemble` function that
  specifies `Build`.
- `Encoder`: the buffer and the encoder.

The text serialiser `serde_json::to_vec` is a parameter of `Encode`: a
function from the JSON value to bytes. Number formatting and string
escaping therefore stay outside the model.

Where the code and the protocol description differ, the model follows the
code:

- the encoder appends no newline after the object;
- an unset optional is written as `null`, not left out of the object;
- a serialisation failure is not surfaced, because `encode` unwraps the
  result of `to_vec` and always returns `Ok(())`.

The protocol description also names other actions and a typed response
union. The code has neither: `KataResponse` is a unit struct.

## Model

| member | source | states |
|---|---|---|
| Enums.ParsePlayerWire | src/lib.rs:91-97 | `"B"` and `"W"` are the only player codes; each decodes to the one player that encodes to it, so the two codes differ |
| Enums.ParseBonusWire | src/lib.rs:82-89 | `"0"`, `"N"` and `"N-1"` are the only bonus strings; each decodes to the one variant that encodes to it, so the mapping is injective |
| Enums.RulesWireTrompTaylor | src/lib.rs:100-102 | the kebab-case rule turns `TrompTaylor` into `"tromp-taylor"` |
| Enums.RulesWireChineseOgs | src/lib.rs:100-104 | `ChineseOgs` becomes `"chinese-ogs"` |
| Enums.RulesWireChineseKgs | src/lib.rs:100-105 | `ChineseKgs` becomes `"chinese-kgs"` |
| Enums.RulesWireStoneScoring | src/lib.rs:100-108 | `StoneScoring` becomes `"stone-scoring"` |
| Enums.RulesWireNewZealand | src/lib.rs:100-111 | `NewZealand` becomes `"new-zealand"` |
| Enums.RulesWireAgaButton | src/lib.rs:100-112 | `AgaButton` becomes `"aga-button"` |
| Enums.RulesWireTable | src/lib.rs:99-113 | the kebab-case form of each of the 11 variant names is the string in the table |
| Enums.RulesWireInjective | src/lib.rs:99-113 | two rule sets have the same wire string exactly when they are the same rule set |
| Enums.ParseRulesWire | src/lib.rs:99-113 | only the 11 kebab-case strings decode, each to the variant that encodes to it |
| Rename.CamelFieldOfWords | src/lib.rs:21 | camelCase of a snake_case name `w0_w1_..._wn` keeps `w0` and capitalises `w1`..`wn` |
| Rename.SnakeCamelRoundTrip | src/lib.rs:21 | camelCase loses nothing on snake_case identifiers: changing the result back to snake_case recovers the field name |
| Rename.CamelFieldInjective | src/lib.rs:21 | two snake_case identifiers with the same camelCase form are equal |
| Rename.KebabVariantOfWords | src/lib.rs:100 | kebab-case of a PascalCase name built from lower-case words joins those words with `-` |
| Rename.KebabRoundTrip | src/lib.rs:100 | kebab-case loses nothing on PascalCase identifiers: removing the dashes and capitalising after them recovers the variant name |
| Rename.KebabVariantInjective | src/lib.rs:100 | two PascalCase identifiers with the same kebab-case form are equal |
| Fields.Index | src/lib.rs:22-72 | every field has a position in the declaration, and the declared sequence holds that field at that position |
| FieldKeys.KeyBoardXSize | src/lib.rs:35 | `board_x_size` is written under `"boardXSize"` |
| FieldKeys.KeyWhiteHandicapBonus | src/lib.rs:34 | `white_handicap_bonus` is written under `"whiteHandicapBonus"` |
| FieldKeys.KeyAnaysisPvLen | src/lib.rs:46 | the misspelled `anaysis_pv_len` is written under `"anaysisPvLen"` |
| FieldKeys.KeyInlcudeOwnershipStdev | src/lib.rs:50 | the misspelled `inlcude_ownership_stdev` is written under `"inlcudeOwnershipStdev"` |
| FieldKeys.GroupKeyUntilDepth | src/lib.rs:75-79 | `MoveGroup.until_depth` is written under `"untilDepth"` |
| FieldKeys.WireKeyTable | src/lib.rs:21-71 | the camelCase form of each of the 26 Rust field names is the key in the table |
| FieldKeys.WireKeyInjective | src/lib.rs:21-71 | two fields have the same key exactly when they are the same field |
| FieldKeys.DeclaredKeysDistinct | src/lib.rs:22-72 | the keys in declaration order name each field once |
| FieldKeys.GroupKeyTableOf | src/lib.rs:74-80 | the camelCase keys of `player`, `moves` and `until_depth` are the ones in the table, and they differ |
| Wire.MemberAt | src/lib.rs:19-72 | the object has 26 members, and the member at a field's declaration position is that field's camelCase key with its value |
| Wire.ToJsonKeys | src/lib.rs:19-72 | the object's keys are exactly the declared keys in declaration order, with none repeated |
| Wire.LookupField | src/lib.rs:19-72 | looking a field's key up in the object finds that field's value |
| Wire.NullIffUnset | src/lib.rs:22-72 | a field is written as `null` exactly when it is unset, or holds a non-finite float or a `null` override; nothing is skipped |
| Wire.LosslessIffNoLossyField | src/lib.rs:31-67 | a query is `Lossless` exactly when no field holds a value that is written as `null` |
| Wire.RequiredNeverNull | src/lib.rs:23-36 | the five fields without `#[builder(default)]` are never `null` |
| Wire.MovesShape | src/lib.rs:26 | `moves` is an array with one `[code, coordinate]` array per move, in move order |
| Wire.InitialStonesShape | src/lib.rs:25 | a set `initialStones` is an array with one `[code, coordinate]` array per stone, in order |
| Wire.RulesField | src/lib.rs:28 | the rule set is written as the kebab-case string of its variant |
| Wire.AllowMovesShape | src/lib.rs:62 | a set `allowMoves` is an array holding exactly its one move group |
| Wire.NonFiniteKomiLooksUnset | src/lib.rs:31-32 | a query with a NaN or infinite komi encodes exactly as the same query without komi, although the two differ |
| WireDecode.StonesRoundTrip | src/lib.rs:25-26 | the array of `(Player, String)` pairs reads back as the same pairs in order |
| WireDecode.GroupRoundTrip | src/lib.rs:74-80 | a move group's object reads back as that group |
| WireDecode.RoundTrip | src/lib.rs:19-72 | a query none of whose set values is written as `null` reads back from its object as itself |
| WireDecode.ToJsonInjective | src/lib.rs:19-72 | two such queries have the same encoding exactly when they are equal |
| Builder.AssembleFails | src/lib.rs:23-36 | `build()` fails exactly when `id`, `moves`, `rules`, `board_x_size` or `board_y_size` is unset, and only with an unset-field error |
| Builder.AssembleNamesFirstMissing | src/lib.rs:22-36 | the error names, by its Rust identifier, the first unset required field in declaration order |
| Builder.AssembleDefaults | src/lib.rs:24-71 | a field with `#[builder(default)]` whose slot was never set comes out as `None` |
| Builder.AssembleSlotsOf | src/lib.rs:19-72 | a builder on which every setter was called with a query's values builds that query |
| Builder.AssembleEmpty | src/lib.rs:115-118 | a fresh builder fails, naming `id` |
| Builder.KataQueryBuilder.constructor | src/lib.rs:115-118 | `KataQuery::builder()` starts with every slot empty |
| Builder.KataQueryBuilder.Build | src/lib.rs:19-72 | `build()` returns what `Assemble` gives for the current slots, checking the fields in declaration order |
| Builder.KataQueryBuilder.SetId | src/lib.rs:23 | fills the `id` slot and changes no other slot |
| Builder.KataQueryBuilder.SetInitialStones | src/lib.rs:24-25 | fills the `initial_stones` slot and changes no other slot |
| Builder.KataQueryBuilder.SetMoves | src/lib.rs:26 | fills the `moves` slot and changes no other slot |
| Builder.KataQueryBuilder.SetRules | src/lib.rs:28 | fills the `rules` slot and changes no other slot |
| Builder.KataQueryBuilder.SetInitialPlayer | src/lib.rs:29-30 | fills the `initial_player` slot and changes no other slot |
| Builder.KataQueryBuilder.SetKomi | src/lib.rs:31-32 | fills the `komi` slot and changes no other slot |
| Builder.KataQueryBuilder.SetWhiteHandicapBonus | src/lib.rs:33-34 | fills the `white_handicap_bonus` slot and changes no other slot |
| Builder.KataQueryBuilder.SetBoardXSize | src/lib.rs:35 | fills the `board_x_size` slot and changes no other slot |
| Builder.KataQueryBuilder.SetBoardYSize | src/lib.rs:36 | fills the `board_y_size` slot and changes no other slot |
| Builder.KataQueryBuilder.SetAnalyzeTurns | src/lib.rs:37-38 | fills the `analyze_turns` slot and changes no other slot |
| Builder.KataQueryBuilder.SetMaxVisits | src/lib.rs:39-40 | fills the `max_visits` slot and changes no other slot |
| Builder.KataQueryBuilder.SetRootPolicyTemperature | src/lib.rs:41-42 | fills the `root_policy_temperature` slot and changes no other slot |
| Builder.KataQueryBuilder.SetRootFpuReductionMax | src/lib.rs:43-44 | fills the `root_fpu_reduction_max` slot and changes no other slot |
| Builder.KataQueryBuilder.SetAnaysisPvLen | src/lib.rs:45-46 | fills the `anaysis_pv_len` slot and changes no other slot |
| Builder.KataQueryBuilder.SetIncludeOwnership | src/lib.rs:47-48 | fills the `include_ownership` slot and changes no other slot |
| Builder.KataQueryBuilder.SetInlcudeOwnershipStdev | src/lib.rs:49-50 | fills the `inlcude_ownership_stdev` slot and changes no other slot |
| Builder.KataQueryBuilder.SetIncludeMovesOwnership | src/lib.rs:51-52 | fills the `include_moves_ownership` slot and changes no other slot |
| Builder.KataQueryBuilder.SetIncludeMovesOwnershipStdev | src/lib.rs:53-54 | fills the `include_moves_ownership_stdev` slot and changes no other slot |
| Builder.KataQueryBuilder.SetIncludePolicy | src/lib.rs:55-56 | fills the `include_policy` slot and changes no other slot |
| Builder.KataQueryBuilder.SetIncludePvVisits | src/lib.rs:57-58 | fills the `include_pv_visits` slot and changes no other slot |
| Builder.KataQueryBuilder.SetAvoidMoves | src/lib.rs:59-60 | fills the `avoid_moves` slot and changes no other slot |
| Builder.KataQueryBuilder.SetAllowMoves | src/lib.rs:61-62 | fills the `allow_moves` slot and changes no other slot |
| Builder.KataQueryBuilder.SetOverrideSettings | src/lib.rs:64-65 | fills the `override_settings` slot and changes no other slot |
| Builder.KataQueryBuilder.SetReportDuringSearchEvery | src/lib.rs:66-67 | fills the `report_during_search_every` slot and changes no other slot |
| Builder.KataQueryBuilder.SetPriority | src/lib.rs:68-69 | fills the `priority` slot and changes no other slot |
| Builder.KataQueryBuilder.SetPriorities | src/lib.rs:70-71 | fills the `priorities` slot and changes no other slot |
| Encoder.BytesMut.ExtendFromSlice | src/lib.rs:149 | the slice is appended at the end and the earlier contents are kept |
| Encoder.KataQueryEncoder.Encode | src/lib.rs:148-151 | the buffer keeps its contents and gains exactly the serialised query at the end, with no newline, and the result is `Ok(())` |

## Left out

- `start` (src/lib.rs:121-141) is left out. It spawns a process and drives tokio pipes through `FramedWrite` and `LinesStream`; that is I/O and asynchronous plumbing, and it panics through `unwrap`.
- `KataResponse` (src/lib.rs:16-17) is a unit struct with nothing to model, and the response decoding on lines 137-139 belongs to `start`.
- serde_json's text output is not modelled: number formatting, string escaping and the bytes of `to_vec`. `Encode` takes the serialiser as a parameter from the JSON value to bytes.
- `f32` values are kept as their IEEE-754 bits, and no float arithmetic is modelled. The only property used is that serde_json writes a NaN or an infinity as `null`.
- `override_settings` is an opaque JSON value that is passed through as it is.
- Rename.KebabVariant: a capital is recognised only in ASCII. serde's kebab-case rule tests `char::is_uppercase`, which also accepts non-ASCII capitals, but every identifier in the crate is ASCII.
- Builder.KataQueryBuilder.SetId and the other setters: `#[builder(setter(into))]` setters take any value convertible with `Into`; here they take the target type itself. They return nothing instead of `&mut Self`, so chained calls are written one after another. Each setter is named after its field with a `Set` prefix, because a Dafny method cannot share a field's name.
- Builder.BuilderError: derive_builder's `ValidationError` variant exists, but no validator is declared, so `build()` never produces it.
- Encoder.BytesMut: the buffer's capacity and reallocation are not modelled; it is only its contents.
- WireDecode is a reference reader for the round-trip lemmas. The crate never decodes a query.
