/**
 * Decoding and encoding of `AdditionalFields` over an abstract JSON object
 * (src/lib.rs:247-310): what `#[serde(default = "default_string")]` does for
 * `demangler`, `exe` and `nvdisasm`, and which keys the `Option` attributes are read from.
 */
module FieldDefaults {

  import opened Wrappers
  import opened Schema

  /** `default_string()` (src/lib.rs:304-306). */
  function DefaultString(): (s: string)
    ensures |s| == 0
  {
    ""
  }

  /** `default_vec_string()` (src/lib.rs:308-310): a list holding one empty string. */
  function DefaultVecString(): (v: seq<string>)
    ensures |v| == 1 && v[0] == DefaultString()
  {
    [""]
  }

  /** serde's `String` deserializer: accepts a JSON string and nothing else. */
  function PlainString(v: Json): (r: Option<string>)
    ensures r.Some? <==> v.Str?
    ensures r.Some? ==> r.value == v.s
  {
    if v.Str? then Some(v.s) else None
  }

  /**
   * A string field carrying `#[serde(default = "default_string")]`: an absent key gives
   * `default_string()`; a present value goes through the field's own deserializer `present`.
   */
  function StringOrDefault(obj: JsonObject, key: string, present: Json -> Option<string>): Option<string>
  {
    if key in obj then present(obj[key]) else Some(DefaultString())
  }

  /**
   * The wire names of the `Option` attributes of `AdditionalFields`: camelCase of the Rust
   * field names, except `lib_path_flag`, which is renamed to `libpathFlag` (src/lib.rs:274).
   */
  const OptionalKeys: set<string> := {
    "adarts", "alias", "demanglerType", "disabledFilters", "envVars", "executionWrapper",
    "fullVersion", "group", "groupName", "hidden", "id", "includeFlag", "includePath",
    "intelAsm", "interpreted", "isSemVer", "ldPath", "libPath", "libpathFlag", "libsArr",
    "license", "linkFlag", "needsMulti", "notification", "objdumper", "objdumperType",
    "optArg", "options", "postProcess", "rpathFlag", "supportsAsmDocs", "supportsAstView",
    "supportsBinary", "supportsCfg", "supportsDemangle", "supportsExecute", "supportsIntel",
    "supportsLibraryCodeFilter", "supportsOptOutput", "supportsPpView", "tools",
    "unwiseOptions", "version"
  }

  /** The wire names of the three always-present string fields. */
  const DefaultedKeys: set<string> := {"demangler", "exe", "nvdisasm"}

  /** What a decoded `AdditionalFields` can hold: only known attributes, none of them null. */
  predicate WellFormed(a: AdditionalFields)
  {
    && a.optional.Keys <= OptionalKeys
    && forall k :: k in a.optional ==> a.optional[k] != Null
  }

  /**
   * Decodes one element of the "additional fields" array. `asString` stands for the
   * `serde_this_or_that::as_string` deserializer of `demangler` and `exe`
   * (src/lib.rs:252, 258); `nvdisasm` uses the plain `String` deserializer (src/lib.rs:281-282).
   * Unknown keys are ignored; an `Option` attribute that is absent or null is left unset.
   */
  function DecodeAdditionalFields(obj: JsonObject, asString: Json -> Option<string>): (r: Option<AdditionalFields>)
    ensures r.Some? <==>
      && StringOrDefault(obj, "demangler", asString).Some?
      && StringOrDefault(obj, "exe", asString).Some?
      && StringOrDefault(obj, "nvdisasm", PlainString).Some?
    ensures r.Some? && "demangler" in obj ==> asString(obj["demangler"]) == Some(r.value.demangler)
    ensures r.Some? && "exe" in obj ==> asString(obj["exe"]) == Some(r.value.exe)
    ensures r.Some? && "nvdisasm" in obj ==> obj["nvdisasm"] == Str(r.value.nvdisasm)
    ensures r.Some? && "demangler" !in obj ==> r.value.demangler == DefaultString()
    ensures r.Some? && "exe" !in obj ==> r.value.exe == DefaultString()
    ensures r.Some? && "nvdisasm" !in obj ==> r.value.nvdisasm == DefaultString()
    ensures r.Some? ==> WellFormed(r.value)
    ensures r.Some? ==> forall k :: k in OptionalKeys && k in obj && obj[k] != Null <==> k in r.value.optional
    ensures r.Some? ==> forall k :: k in r.value.optional ==> r.value.optional[k] == obj[k]
  {
    var demangler := StringOrDefault(obj, "demangler", asString);
    var exe := StringOrDefault(obj, "exe", asString);
    var nvdisasm := StringOrDefault(obj, "nvdisasm", PlainString);
    if demangler.None? || exe.None? || nvdisasm.None? then None
    else
      Some(AdditionalFields(demangler.value, exe.value, nvdisasm.value,
                            map k | k in obj && k in OptionalKeys && obj[k] != Null :: obj[k]))
  }

  /**
   * The serde `Serialize` derive on `AdditionalFields` (src/lib.rs:247): every field is
   * written, an unset `Option` attribute as null.
   */
  function EncodeAdditionalFields(a: AdditionalFields): (obj: JsonObject)
    ensures obj.Keys == OptionalKeys + DefaultedKeys
  {
    map k | k in OptionalKeys + DefaultedKeys :: EncodedMember(a, k)
  }

  /** The value the `Serialize` derive writes under `key`. */
  function EncodedMember(a: AdditionalFields, key: string): Json
  {
    if key == "demangler" then Str(a.demangler)
    else if key == "exe" then Str(a.exe)
    else if key == "nvdisasm" then Str(a.nvdisasm)
    else if key in a.optional then a.optional[key]
    else Null
  }

  /** None of the defaulted keys is also an `Option` attribute. */
  lemma DefaultedKeysNotOptional()
    ensures DefaultedKeys !! OptionalKeys
  {
  }

  /**
   * A key that is absent decodes to `default_string()`, i.e. the empty string, for each of
   * `demangler`, `exe` and `nvdisasm`, whatever the other keys hold.
   */
  lemma AbsentKeysDefaultToEmpty(obj: JsonObject, asString: Json -> Option<string>)
    requires "demangler" !in obj && "exe" !in obj && "nvdisasm" !in obj
    ensures DecodeAdditionalFields(obj, asString).Some?
    ensures DecodeAdditionalFields(obj, asString).value.demangler == ""
    ensures DecodeAdditionalFields(obj, asString).value.exe == ""
    ensures DecodeAdditionalFields(obj, asString).value.nvdisasm == ""
  {
  }

  /** A present `nvdisasm` that is not a string fails the whole decode: the default applies only to absence. */
  lemma NonStringNvdisasmFails(obj: JsonObject, asString: Json -> Option<string>)
    requires "nvdisasm" in obj && !obj["nvdisasm"].Str?
    ensures DecodeAdditionalFields(obj, asString) == None
  {
  }

  /**
   * Decoding what the `Serialize` derive wrote gives back the same record, provided the
   * record is well formed and `as_string` returns a string value unchanged.
   */
  lemma DecodeEncode(a: AdditionalFields, asString: Json -> Option<string>)
    requires WellFormed(a)
    requires asString(Str(a.demangler)) == Some(a.demangler)
    requires asString(Str(a.exe)) == Some(a.exe)
    ensures DecodeAdditionalFields(EncodeAdditionalFields(a), asString) == Some(a)
  {
    var obj := EncodeAdditionalFields(a);
    EncodedDefaulted(a);
    var r := DecodeAdditionalFields(obj, asString);
    assert r.Some?;
    var m := r.value.optional;
    forall k | k in a.optional
      ensures k in m && m[k] == a.optional[k]
    {
      EncodedOptional(a, k);
    }
    forall k | k in m
      ensures k in a.optional
    {
      EncodedOptional(a, k);
    }
    assert m == a.optional;
    assert r.value.demangler == a.demangler;
    assert r.value.exe == a.exe;
    assert r.value.nvdisasm == a.nvdisasm;
  }

  lemma EncodedDefaulted(a: AdditionalFields)
    ensures EncodeAdditionalFields(a)["demangler"] == Str(a.demangler)
    ensures EncodeAdditionalFields(a)["exe"] == Str(a.exe)
    ensures EncodeAdditionalFields(a)["nvdisasm"] == Str(a.nvdisasm)
  {
  }

  lemma EncodedOptional(a: AdditionalFields, k: string)
    requires k in OptionalKeys
    ensures k in EncodeAdditionalFields(a)
    ensures EncodeAdditionalFields(a)[k] == if k in a.optional then a.optional[k] else Null
  {
    DefaultedKeysNotOptional();
    assert k !in DefaultedKeys;
  }
}
