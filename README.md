# BOM builder for npm projects

This project models the core of a CycloneDX SBOM generator for npm projects: the `BomBuilder` of `src/bom-builder.ts`.

The builder runs `npm ls --json --long --depth`. A failed run is fatal unless npm errors are ignored; in that case the captured output is used instead. The builder then parses the output as JSON and turns the top-level record into a root component. Attaching that root to the BOM's metadata is commented out in the source (`src/bom-builder.ts:138`), so the root is built and then dropped: the returned BOM never holds it.

Making a component from an npm-ls record goes like this:

- a development record is omitted when development dependencies are omitted;
- a record the component builder cannot build is "broken";
- otherwise the component is enriched in place with:
  - an install-path property, and development, extraneous, private and bundled flag properties (npm-ls v6 hides some of these behind a leading `_`);
  - a distribution reference for the `resolved` URL;
  - a SHA-512 hash, taken from a `sha512-<base64>` integrity value and stored as hex;
  - a purl, shortened on request;
  - a bom-ref: the record's `_id`, or else `<group>/<name>@<version>` with `-` for an empty or missing group or version.

When no root component can be made, a `DummyComponent.RootComponent` placeholder takes its place. The BOM gets the tool's own metadata and, unless the build is reproducible, a timestamp. On request its components are flattened.

Module layout:

- `Wrappers` holds `Option` and `Result`.
- `JsValues` holds the JSON values of a record and JavaScript's `??` and `=== true` on them, including the legacy-field reads.
- `Encoding` holds base64 as in section 4 of RFC 4648 and lower-case base16 as in section 8 of RFC 4648, each with its inverse.
- `CdxModels` holds the CycloneDX values the builder touches. `Component` and `Bom` are classes, because the builder updates them in place.
- `Enrichment` holds the enrichment rules of `makeComponent` as functions, with lemmas about them.
- `BomBuilding` holds the `BomBuilder` class. Its methods change the component, or the BOM, field by field as the source does. The enrichment methods are proved against the functions of `Enrichment`. The fetch and assembly methods are proved against `OutputBytes`, `ExitMessage`, `ThisTool` and `RootValue`, or state their results directly.

Collaborators whose code is not part of this model are constants of the builder: the component builder, the purl factory, the tool builder and the ignore pattern for `resolved` URLs. So are the parsed `package.json` of the tool itself and the builder's `reproducible`, `shortPURLs` and `metaComponentType`. The `npm ls` run, the JSON parser and the clock are parameters.

## Model

| member | source | states |
|---|---|---|
| JsValues.LegacyFlagCases | src/bom-builder.ts:187 | `(data.dev ?? data._development) === true` holds exactly when the current field is `true`, or when the current field is missing or `null` and the legacy field is `true` |
| JsValues.LegacyFlagFalseHidesLegacy | src/bom-builder.ts:239 | a present current field that is not `true` (`false`, a string, another value) hides the legacy field, so the flag is not set |
| Encoding.SextetChar | src/bom-builder.ts:272 | every sextet has a base64 alphabet character that decodes back to it |
| Encoding.EncodeQuantum | src/bom-builder.ts:272 | one to three bytes encode to a final quantum, padded with one `=` for two bytes and two `=` for one byte |
| Encoding.DecodeQuantum | src/bom-builder.ts:272 | a final quantum decodes to one byte when its third character is padding, two when only its fourth is, and three otherwise |
| Encoding.DecodeEncodeQuantum | src/bom-builder.ts:272 | decoding the quantum that encodes one to three bytes gives those bytes back |
| Encoding.Base64RoundTrip | src/bom-builder.ts:272 | the base64 encoding of any byte string is well-formed base64, and decodes to the same bytes |
| Encoding.HexEncode | src/bom-builder.ts:272 | the hex text of a byte string has two characters per byte, all of them lower-case hex digits |
| Encoding.HexRoundTrip | src/bom-builder.ts:272 | the hex text of any byte string is well-formed hex and decodes back to the same bytes |
| Encoding.HexDigit | src/bom-builder.ts:272 | every nibble has a lower-case hex digit |
| Encoding.HexDecode | src/bom-builder.ts:272 | hex text decodes to half as many bytes as it has characters |
| CdxModels.DummyValue | src/bom-builder.ts:18-25 | the placeholder's name and bom-ref are both `DummyComponent.<name>`; it keeps the requested type and has no properties, references, hashes, purl, group or version |
| CdxModels.Component.Dummy | src/bom-builder.ts:18-25 | a new placeholder component holds exactly that placeholder value and no children |
| CdxModels.Component.FromValue | src/bom-builder.ts:197 | a component as the component builder creates it holds the given value and no children |
| CdxModels.Bom.constructor | src/bom-builder.ts:134 | a new BOM has no tools, no timestamp and no components |
| Enrichment.WithFlagAppends | src/bom-builder.ts:214-221 | adding one flag property to a sequence appends it after everything already there |
| Enrichment.WithPackagePropertiesAppends | src/bom-builder.ts:209-246 | adding the properties one after another appends the install path, development, extraneous, private and bundled properties, in that order, to the existing ones |
| Enrichment.PropertiesForRules | src/bom-builder.ts:209-246 | for given flags, the install path is added exactly when `path` is a string and each flag property exactly when its flag is set; no false-valued property is added |
| Enrichment.AddedPropertiesRules | src/bom-builder.ts:209-246 | for a record, the install-path property is added exactly when `path` is a string. Development is added exactly when `dev ?? _development` is `true`, extraneous and private when they are strictly `true`, and bundled when `inBundle ?? _inBundle` is `true`. No false-valued property is ever added |
| Enrichment.DistinctNamesConcat | src/bom-builder.ts:209-246 | joining two sequences with distinct property names, whose names do not overlap, keeps the names distinct |
| Enrichment.AddedPropertiesDistinct | src/bom-builder.ts:209-246 | no property name is added twice for one record |
| Enrichment.DistributionReferenceRules | src/bom-builder.ts:250-263 | at most one reference is added. One is added exactly when `resolved ?? _resolved` is a string the ignore pattern does not match, and it is a distribution reference to that URL |
| Enrichment.Sha512PayloadShape | src/bom-builder.ts:268 | the integrity pattern matches exactly `sha512-<payload>` with a padded base64 payload, and captures the payload |
| Enrichment.HashesAfterRules | src/bom-builder.ts:265-275 | only the SHA-512 entry is touched. It is set to the hex digest when the integrity has the sha512 shape. Otherwise the map is unchanged, and every other algorithm's entry always is |
| Enrichment.IntegrityHashOfEncodedBytes | src/bom-builder.ts:265-275 | an integrity `sha512-<base64 of some bytes>` stores exactly the hex encoding of those bytes as the SHA-512 hash |
| Enrichment.StoredHashDecodesToPayload | src/bom-builder.ts:268-273 | the stored SHA-512 value is well-formed hex, and decodes to the bytes the base64 payload decodes to |
| Enrichment.OtherAlgorithmLeavesHashes | src/bom-builder.ts:266-269 | an integrity string that does not start with `sha512-` leaves the hashes unchanged |
| Enrichment.ShortenPurlRules | src/bom-builder.ts:290-302 | short-purl mode removes exactly the qualifiers and the subpath, and keeps the rest. Without it the factory's purl is kept. A missing purl stays missing, and shortening twice is the same as shortening once |
| Enrichment.OrDash | src/bom-builder.ts:284 | `value \|\| "-"` is the value itself when that is a non-empty string, and `-` when it is empty or missing |
| Enrichment.BomRefPrefersId | src/bom-builder.ts:281-282 | a non-empty string `_id` is the bom-ref, whatever the component's identity |
| Enrichment.BomRefFallbackShape | src/bom-builder.ts:281-284 | without a usable `_id`, the bom-ref is `<group or ->/<name>@<version or ->` |
| Enrichment.SplitAtFirst | src/bom-builder.ts:284 | a separator absent from both prefixes splits two equal strings into equal prefixes and equal suffixes |
| Enrichment.FallbackBomRefInjective | src/bom-builder.ts:284 | for groups without `/` and names without `@`, equal fallback bom-refs mean equal group, equal name and equal version (with an empty or missing part read as `-`) |
| Enrichment.BomRefNonEmpty | src/bom-builder.ts:281-284 | a component's bom-ref is never empty |
| Enrichment.FallbackBomRefNeverDummyRoot | src/bom-builder.ts:18-25 | a fallback bom-ref always contains `/`, so it never equals the placeholder root's bom-ref |
| Enrichment.BeforePurlExtends | src/bom-builder.ts:207-275 | the property, reference and hash rules only add. The builder's identity fields are kept, and its properties and references stay in front of the added ones. Hashes of other algorithms are kept |
| BomBuilding.StatusTextNamesMissingStatus | src/bom-builder.ts:96-98 | the error message says `noStatus` exactly when the run reported no exit status |
| BomBuilding.DecimalText | src/bom-builder.ts:97 | an exit status prints as a non-empty run of decimal digits with no leading zero (only 0 itself starts with `0`) |
| BomBuilding.DecimalTextDenotes | src/bom-builder.ts:97 | the digits printed for an exit status, read back as a decimal number, are that status |
| BomBuilding.OutputBytes | src/bom-builder.ts:104 | the bytes that get parsed are the output of a clean run, the captured stdout of a failed run when there is one, and no bytes when a failed run captured none |
| BomBuilding.BomBuilder.constructor | src/bom-builder.ts:44-50 | the builder keeps its collaborators and options |
| BomBuilding.BomBuilder.FetchNpmLs | src/bom-builder.ts:56-115 | a failed run without `ignoreNpmErrors` fails with `npm-ls exited with errors: <status> <signal>`. Otherwise the result is a success exactly when the output parses, and it is then the parsed record. Unparsable output always fails. When it is reached, the error is `failed to parse pnpm-ls response`, with the parser's error as its cause |
| BomBuilding.BomBuilder.EnrichedExtendsBuilt | src/bom-builder.ts:207-284 | the whole enrichment keeps the builder's identity fields, properties and other hashes, and always sets a non-empty bom-ref |
| BomBuilding.BomBuilder.AddFlagProperty | src/bom-builder.ts:214-221 | appends the `true` flag property exactly when the flag is set, and changes nothing else |
| BomBuilding.BomBuilder.AddPackageProperties | src/bom-builder.ts:209-246 | the component's properties become the old ones followed by the record's added properties |
| BomBuilding.BomBuilder.AddDistributionReference | src/bom-builder.ts:250-263 | the component's references become the old ones followed by the record's distribution reference, if it has one |
| BomBuilding.BomBuilder.AddIntegrityHash | src/bom-builder.ts:265-275 | the component's hashes become those after the integrity rule |
| BomBuilding.BomBuilder.EnrichComponent | src/bom-builder.ts:207-284 | the component becomes the enriched form of what the builder made, and its children are unchanged |
| BomBuilding.BomBuilder.MakeComponent | src/bom-builder.ts:183-287 | the result is `false` exactly for a development record when development dependencies are omitted, without consulting the builder. It is `undefined` exactly when it is not omitted and the builder fails. Otherwise it is a new childless component holding the enriched value |
| BomBuilding.BomBuilder.MakeRootComponent | src/bom-builder.ts:125-127 | the root is a new childless component: the record's own enriched component, or the `DummyComponent.RootComponent` placeholder of the meta component type |
| BomBuilding.BomBuilder.FlattenComponents | src/bom-builder.ts:169-176 | every collected component ends with no children, and every one except the root joins the BOM's top-level components. The root is never added |
| BomBuilding.BomBuilder.AssembleBom | src/bom-builder.ts:128-180 | the tool is listed when it can be built. A timestamp is set exactly when the build is not reproducible. No component is listed, and flattening clears the root's children |
| BomBuilding.BomBuilder.BuildFromNpmLs | src/bom-builder.ts:117-181 | the BOM holds the tool and the timestamp as above, and no components. Its root component holds the root value and no children |
| BomBuilding.BomBuilder.BuildFromProjectDir | src/bom-builder.ts:52-54 | it fails exactly when the run failed and npm errors are not ignored, or when the output does not parse. The error is the npm-ls exit message or the parse-failure error with its cause, as in `fetchNpmLs`. Otherwise the BOM is new, lists no components, lists the tool when it can be built, and has a timestamp exactly when the build is not reproducible |

## Left out

- Running `npm` (`execSync`, the working directory, the environment, the output buffer size): the outcome of the run is a parameter.
- Logging through `console`: it has no effect on the result.
- `JSON.parse`: the parser is a parameter, and a record is a map from keys to values. A top-level JSON `null` is not modelled: the source throws a `TypeError` when it reads `data.dev` (`src/bom-builder.ts:187`, reached from line 126). A number, string, boolean or array reads `undefined` for every field, which is what the empty map gives.
- The component builder, purl factory and tool builder of the CycloneDX library, and `require("../package.json")`: these are function-valued constants of the builder. The library's own models are reduced to the fields the builder touches.
- `resolvedRE_ignore` and `hashRE_sha512_base64` are read from the builder but not declared in `src/bom-builder.ts`. As written, `.test` (line 254) and `.exec` (line 268) therefore throw a `TypeError` for every record whose `resolved` or `integrity` is a string. The model does not reproduce that failure: the ignore pattern is a constant of the builder, and the sha512 pattern is taken to match `sha512-` followed by padded base64.
- Enrichment.Sha512PayloadShape: Node's lenient base64 decoding of malformed payloads is not modelled. Only payloads that are padded base64 are decoded, and any others leave the hashes as they were. The empty payload counts as padded base64, so the integrity `sha512-` stores an empty SHA-512 value. Whether the real pattern admits an empty capture cannot be told from this file.
- `new Date()`: the clock reading is a parameter.
- The dependency walk (`gatherDependencies`), the path properties (`finalizePathProperties`) and the nesting (`nestComponents`) are commented out in the source (`src/bom-builder.ts:129-130`, `153-165`). The model follows the code as written: the collected components hold only the root, and the BOM's top-level component collection is always empty.
- `adjustNestedBomRefs` (line 166) is live code, but it is not declared in this class. It runs over `bom.components`, which is still empty at that point, so it is never called; the model has no step for it.
- `this.reproducible`, `this.shortPURLs` and `this.metaComponentType` are read from the builder, not from its options. At run time they are `undefined`. The model makes them separate constants of the builder rather than fixing them as `undefined`.
- `packageLockOnly` and the `optional` and `peer` omission types are never read by this code; they are carried in `Options` only.
- The insertion order of JavaScript `Set` collections, and object identity beyond the component classes: properties and references are sequences, hashes a map, and the BOM's components a set.
- `src/properties.ts` is not part of this model: property names and the boolean value `"true"` are symbolic.
