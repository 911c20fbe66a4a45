# godbolt-rs core, modelled in Dafny

`godbolt-rs` is a typed client for the Compiler Explorer web service (godbolt.org). Most
of the crate sends HTTP requests and hands the answers to serde. This model covers the
logic that is left once the transport and the JSON decoders are taken out:

- **The metadata merge** (`get_compilers_with_fields`, `get_compilers_with_all_fields`).
  One response body is decoded twice, once as a list of `Compiler` and once as a list of
  `AdditionalFields`. The two lists are zipped by position, and each record is written
  into its compiler's `additional_fields` slot. If either decode fails, the whole call
  fails. `MetadataMerge.ZipAttach` is the specification: a strict zip. `MetadataMerge.AttachAll`
  is the source's loop. It walks a mutable array of compilers, overwrites each slot and
  collects copies, and it is proved equal to `ZipAttach`.
- **The extra-fields URL**. The caller's field names are joined with `","` and appended
  after a fixed query prefix that ends in a comma. `Urls.Split` is Rust's `str::split`. It
  is the inverse used to state what the URL lists, including the trailing comma that an
  empty list leaves.
- **Compile requests** (`send_request`, `send_request_with_options`). These cover the
  default `Filters` profile, the default `-O` arguments, the source text passed through
  unchanged, and the `/api/compiler/{id}/compile` endpoint.
- **Field defaults of `AdditionalFields`**. This covers `default_string`,
  `default_vec_string` and the `#[serde(default = "default_string")]` fields `demangler`,
  `exe` and `nvdisasm`. They are modelled over an abstract JSON object (a map from key to
  value), together with the wire names of the record's optional attributes.

The transport is the parameter `Client.Fetch`, a function from URL to an optional response
body. serde's two list decoders are the parameter `Client.Codec`. The `?` operators become
a `Result` whose error says which step failed. The two decodes are tried in the source's
order, so when both fail the error names the compiler list.

Files: `wrappers.dfy` (Option, Result), `schema.dfy` (the records, `Filters::default`),
`field_defaults.dfy`, `urls.dfy`, `metadata_merge.dfy`, `client.dfy`.

## Model

| member | source | states |
|---|---|---|
| Schema.DefaultFilters | src/lib.rs:202-206 | the default profile turns on exactly comment-only, demangle, directives, intel and labels; binary, execute, library-code and trim are off |
| Schema.DefaultOptions | src/lib.rs:124-125 | the options `send_request` builds: user arguments `-O` and the default filter profile |
| FieldDefaults.DefaultString | src/lib.rs:304-306 | `default_string()` is the empty string |
| FieldDefaults.DefaultVecString | src/lib.rs:308-310 | `default_vec_string()` is a one-element list holding `default_string()` |
| FieldDefaults.DecodeAdditionalFields | src/lib.rs:247-302 | decoding succeeds exactly when each of `demangler`, `exe` (through `as_string`) and `nvdisasm` (plain string) is absent or accepted by its deserializer; a present field holds `as_string`'s result or the JSON string, an absent one `default_string()`; the result keeps exactly the known optional attributes the object holds with a non-null value, unchanged |
| FieldDefaults.EncodeAdditionalFields | src/lib.rs:247 | the `Serialize` derive writes every field: the 43 optional attributes under their wire names plus the three string fields |
| FieldDefaults.AbsentKeysDefaultToEmpty | src/lib.rs:252-282 | when `demangler`, `exe` and `nvdisasm` are absent, decoding succeeds and each becomes the empty string |
| FieldDefaults.NonStringNvdisasmFails | src/lib.rs:281-282 | the default covers only an absent `nvdisasm`: a present non-string value makes the decode fail |
| FieldDefaults.DecodeEncode | src/lib.rs:247-302 | decoding what serialization wrote gives back the record, when `as_string` returns a string unchanged |
| Urls.Join | src/lib.rs:41 | `fields.join(",")`: an empty list joins to the empty string; otherwise the result starts with the first name and is as long as all names plus one separator between each pair |
| Urls.SplitJoin | src/lib.rs:41 | splitting a joined non-empty list of comma-free names at commas gives the list back |
| Urls.JoinSplit | src/lib.rs:41 | joining the pieces of any string split at commas gives the string back |
| Urls.FieldsUrl | src/lib.rs:41-42 | the URL starts with the fixed prefix; an empty field list gives exactly the prefix, trailing comma included |
| Urls.FieldsUrlPrefixLayout | src/lib.rs:42 | the fixed prefix is the `fields=` query key followed by compilerType, id, instructionSet, lang, name, semver, each closed by a comma |
| Urls.FieldsUrlLists | src/lib.rs:41-42 | for caller field names without commas, read back as a comma list, the `fields` value is the six base fields followed by the caller's fields, or by one empty name when the caller gave none |
| Urls.FieldsUrlInjective | src/lib.rs:41-42 | different non-empty lists of comma-free field names give different URLs |
| Urls.FieldsUrlIsNotAllFields | src/lib.rs:61 | no extra-fields URL equals the all-fields URL |
| Urls.CompileUrl | src/lib.rs:129 | the compile URL is the endpoint prefix, the compiler id unchanged, then `/compile` |
| MetadataMerge.ZipAttach | src/lib.rs:50-55 | the merge has min(#compilers, #records) elements; element i is compiler i with only its slot replaced by `Some(record i)` |
| MetadataMerge.ZipAttachAllAttached | src/lib.rs:52-54 | every merged compiler carries additional fields |
| MetadataMerge.ZipAttachIgnoresPriorSlot | src/lib.rs:52-54 | whatever the slot held before is overwritten: compilers equal apart from the slot merge to the same list |
| MetadataMerge.ZipAttachTruncates | src/lib.rs:50-51 | with mismatched lengths the merge equals the merge of the two prefixes of the shorter length |
| MetadataMerge.UnzipZipAttach | src/lib.rs:50-55 | taking a merged list apart gives the compilers' base records and the records, both cut to the shorter length |
| MetadataMerge.ZipAttachUnzip | src/lib.rs:50-55 | zipping the two halves of a fully attached list rebuilds it |
| MetadataMerge.AttachAll | src/lib.rs:50-55 | the in-place loop over the decoded compilers collects exactly the strict zip |
| MetadataMerge.MergedListing | src/lib.rs:48-56 | the merge succeeds iff both decodes succeed; a failed compiler decode is reported before a failed record decode; no partial list; on success the strict zip |
| MetadataMerge.MergeDecodes | src/lib.rs:48-56 | the two `?` decodes followed by the loop give exactly `MergedListing` |
| Client.FieldListing | src/lib.rs:48-56 | what both field-listing operations return after the fetch: success iff the transport and both decodes of the one body succeed, a transport error when nothing came back, no partial list, and on success the strict zip of the two decodes |
| Client.GetCompilersWithFields | src/lib.rs:40-57 | the result is the field listing of the response to the extra-fields URL |
| Client.GetCompilersWithAllFields | src/lib.rs:60-76 | the result is the field listing of the response to the all-fields URL |
| Client.SameBodySameListing | src/lib.rs:48-75 | both operations' results go through the same `FieldListing`, so when the two URLs are answered with the same body the results are equal |
| Client.SendRequestWithOptions | src/lib.rs:140-151 | posts to the compiler's compile URL with the source text and the caller's options unchanged |
| Client.SendRequest | src/lib.rs:123-136 | posts to the compiler's compile URL with the source text unchanged, user arguments `-O` and the default filter profile |
| Client.SendRequestIsDefaultOptions | src/lib.rs:123-145 | `send_request` is `send_request_with_options` with the default options |
| Client.SendRequestInjective | src/lib.rs:124-129 | different compiler ids or different source texts never give the same request |

## Left out

- The HTTP transport is a function parameter. This covers `reqwest::Client`, the `Accept: application/json` header set up in `Godbolt::new`, and the async `send`/`text`/`json` calls. A transport failure is one `TransportError`.
- `get_compilers`, `get_compiler_by_id`, `get_languages`, `get_library_by_id` and `get_formats` are left out. Each is one GET whose body goes straight to serde, with no logic of its own.
- JSON text and serde's derived decoders are not modelled. The two list decodes of a body are the abstract functions in `Client.Codec`. `AdditionalFields` is modelled over an abstract JSON object, not over text.
- The types of the optional attributes of `AdditionalFields` are not checked. An optional attribute of the wrong JSON type is kept, where serde would fail the decode.
- The `serde_this_or_that::as_string` coercion is the parameter `asString` for `demangler` and `exe`. Its code is not part of this model, so how it treats a non-string value cannot be seen here. A present `demangler` or `exe` holds whatever `asString` returns, and an absent one holds the empty string.
- The coercion of `instruction_set` is left out for the same reason. `Compiler` records come out of the abstract decoder.
- `CompilationResponse`, `Format`, `Library` and `Language` are left out. They are plain serde records with no logic of their own.
- JSON numbers are unbounded integers. Floating point is not modelled.
- `src/test.rs` is not modelled. Each of its tests makes a live request and checks only that the request succeeded.
- Urls.FieldsUrlLists: states the read-back only for field names without commas. The source sends any name as it is, and a name that holds a comma reads back as several names.
