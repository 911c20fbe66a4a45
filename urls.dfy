/**
 * The request URLs the client builds (src/lib.rs:41-42, 61, 129, 144): the extra-fields
 * query made with `fields.join(",")` and `format!`, and the compile endpoint path.
 */
module Urls {

  /** The total length of the parts. */
  function TotalLength(parts: seq<string>): nat
  {
    if |parts| == 0 then 0 else |parts[0]| + TotalLength(parts[1..])
  }

  /** `parts.join(sep)` on a slice of strings: the parts with one separator between neighbours. */
  function Join(parts: seq<string>, sep: char): (s: string)
    ensures |parts| == 0 ==> s == ""
    ensures |parts| >= 1 ==> |s| == TotalLength(parts) + |parts| - 1
    ensures |parts| >= 1 ==> s[..|parts[0]|] == parts[0]
  {
    if |parts| == 0 then ""
    else if |parts| == 1 then parts[0]
    else parts[0] + [sep] + Join(parts[1..], sep)
  }

  /**
   * `s.split(sep)`: the pieces between separators, in order. Like Rust's `str::split` it
   * always yields at least one piece, so the empty string splits into `[""]`.
   */
  function Split(s: string, sep: char): (parts: seq<string>)
    ensures |parts| >= 1
    ensures forall i :: 0 <= i < |parts| ==> sep !in parts[i]
  {
    if |s| == 0 then [""]
    else
      var rest := Split(s[1..], sep);
      if s[0] == sep then [""] + rest
      else [[s[0]] + rest[0]] + rest[1..]
  }

  /** A piece without separators is not split. */
  lemma {:induction false} SplitSeparatorFree(p: string, sep: char)
    requires sep !in p
    ensures Split(p, sep) == [p]
  {
    if |p| > 0 {
      SplitSeparatorFree(p[1..], sep);
      assert [p[0]] + p[1..] == p;
    }
  }

  /** Splitting a separator-free piece followed by a separator peels that piece off. */
  lemma {:induction false} SplitAfterPiece(p: string, sep: char, t: string)
    requires sep !in p
    ensures Split(p + [sep] + t, sep) == [p] + Split(t, sep)
  {
    var s := p + [sep] + t;
    if |p| == 0 {
      assert s == [sep] + t;
      assert s[1..] == t;
    } else {
      assert s[1..] == p[1..] + [sep] + t;
      SplitAfterPiece(p[1..], sep, t);
      assert [p[0]] + p[1..] == p;
    }
  }

  /** Joining then splitting gives back the parts, when no part holds the separator. */
  lemma {:induction false} SplitJoin(parts: seq<string>, sep: char)
    requires |parts| >= 1
    requires forall i :: 0 <= i < |parts| ==> sep !in parts[i]
    ensures Split(Join(parts, sep), sep) == parts
  {
    if |parts| == 1 {
      SplitSeparatorFree(parts[0], sep);
    } else {
      SplitAfterPiece(parts[0], sep, Join(parts[1..], sep));
      SplitJoin(parts[1..], sep);
      assert [parts[0]] + parts[1..] == parts;
    }
  }

  /** Splitting then joining gives back the string, for every string. */
  lemma {:induction false} JoinSplit(s: string, sep: char)
    ensures Join(Split(s, sep), sep) == s
  {
    if |s| > 0 {
      var rest := Split(s[1..], sep);
      JoinSplit(s[1..], sep);
      if s[0] == sep {
        assert ([""] + rest)[1..] == rest;
        assert [s[0]] + s[1..] == s;
      } else if |rest| == 1 {
        assert [s[0]] + s[1..] == s;
      } else {
        var parts := [[s[0]] + rest[0]] + rest[1..];
        assert parts[1..] == rest[1..];
        assert Join(rest, sep) == rest[0] + [sep] + Join(rest[1..], sep);
        assert [s[0]] + s[1..] == s;
      }
    }
  }

  /** Joining a non-empty list ahead of another: one separator between them. */
  lemma {:induction false} SplitAfterJoin(front: seq<string>, sep: char, t: string)
    requires |front| >= 1
    requires forall i :: 0 <= i < |front| ==> sep !in front[i]
    ensures Split(Join(front, sep) + [sep] + t, sep) == front + Split(t, sep)
  {
    if |front| == 1 {
      SplitAfterPiece(front[0], sep, t);
    } else {
      var tail := Join(front[1..], sep);
      calc {
        Split(Join(front, sep) + [sep] + t, sep);
        { assert Join(front, sep) + [sep] + t == front[0] + [sep] + (tail + [sep] + t); }
        Split(front[0] + [sep] + (tail + [sep] + t), sep);
        { SplitAfterPiece(front[0], sep, tail + [sep] + t); }
        [front[0]] + Split(tail + [sep] + t, sep);
        { SplitAfterJoin(front[1..], sep, t); }
        [front[0]] + (front[1..] + Split(t, sep));
        { assert [front[0]] + front[1..] == front; }
        front + Split(t, sep);
      }
    }
  }

  /** The endpoint and query key in front of the requested field list. */
  const FieldsQuery: string := "https://godbolt.org/api/compilers?fields="

  /** The base fields every extra-fields request asks for, in the order the URL lists them. */
  const BaseFields: seq<string> := ["compilerType", "id", "instructionSet", "lang", "name", "semver"]

  /** The base field names as the URL spells them, trailing comma included. */
  const BaseFieldsText: string := "compilerType,id,instructionSet,lang,name,semver,"

  /** The fixed text in front of the caller's fields (src/lib.rs:42). */
  const FieldsUrlPrefix: string := FieldsQuery + BaseFieldsText

  /** The URL of `get_compilers_with_all_fields` (src/lib.rs:61). */
  const AllFieldsUrl: string := FieldsQuery + "all"

  /** The URL of `get_compilers_with_fields` (src/lib.rs:41-42). */
  function FieldsUrl(fields: seq<string>): (url: string)
    ensures |FieldsUrlPrefix| <= |url| && url[..|FieldsUrlPrefix|] == FieldsUrlPrefix
    ensures |fields| == 0 ==> url == FieldsUrlPrefix
  {
    var additionalFields := Join(fields, ',');
    FieldsUrlPrefix + additionalFields
  }

  /** The fixed prefix is the query key followed by the base fields, each closed by a comma. */
  lemma FieldsUrlPrefixLayout()
    ensures FieldsUrlPrefix == FieldsQuery + Join(BaseFields, ',') + [',']
  {
    var j5 := Join(BaseFields[5..], ',');
    assert j5 == "semver";
    assert BaseFields[4..][1..] == BaseFields[5..];
    var j4 := Join(BaseFields[4..], ',');
    assert j4 == "name" + [','] + j5;
    assert BaseFields[3..][1..] == BaseFields[4..];
    var j3 := Join(BaseFields[3..], ',');
    assert j3 == "lang" + [','] + j4;
    assert BaseFields[2..][1..] == BaseFields[3..];
    var j2 := Join(BaseFields[2..], ',');
    assert j2 == "instructionSet" + [','] + j3;
    assert BaseFields[1..][1..] == BaseFields[2..];
    var j1 := Join(BaseFields[1..], ',');
    assert j1 == "id" + [','] + j2;
    assert Join(BaseFields, ',') == "compilerType" + [','] + j1;
    assert BaseFieldsText == Join(BaseFields, ',') + [','];
  }

  /**
   * Read back as a comma-separated list, the `fields` query value is the six base fields
   * followed by the caller's fields; an empty caller list leaves a trailing comma, read
   * back as one empty field name.
   */
  lemma FieldsUrlLists(fields: seq<string>)
    requires forall i :: 0 <= i < |fields| ==> ',' !in fields[i]
    ensures |FieldsQuery| <= |FieldsUrl(fields)|
    ensures Split(FieldsUrl(fields)[|FieldsQuery|..], ',') == BaseFields + (if |fields| == 0 then [""] else fields)
  {
    FieldsUrlPrefixLayout();
    var url := FieldsUrl(fields);
    assert url[|FieldsQuery|..] == Join(BaseFields, ',') + [','] + Join(fields, ',');
    assert forall i :: 0 <= i < |BaseFields| ==> ',' !in BaseFields[i];
    SplitAfterJoin(BaseFields, ',', Join(fields, ','));
    if |fields| > 0 {
      SplitJoin(fields, ',');
    }
  }

  /** Different non-empty lists of comma-free fields give different URLs. */
  lemma FieldsUrlInjective(a: seq<string>, b: seq<string>)
    requires |a| >= 1 && |b| >= 1
    requires forall i :: 0 <= i < |a| ==> ',' !in a[i]
    requires forall i :: 0 <= i < |b| ==> ',' !in b[i]
    requires FieldsUrl(a) == FieldsUrl(b)
    ensures a == b
  {
    FieldsUrlLists(a);
    FieldsUrlLists(b);
    assert (BaseFields + a)[|BaseFields|..] == a;
    assert (BaseFields + b)[|BaseFields|..] == b;
  }

  /** The "with fields" and "all fields" operations never send the same query. */
  lemma FieldsUrlIsNotAllFields(fields: seq<string>)
    ensures FieldsUrl(fields) != AllFieldsUrl
  {
  }

  const CompileUrlPrefix: string := "https://godbolt.org/api/compiler/"
  const CompileUrlSuffix: string := "/compile"

  /** The endpoint both compile operations post to (src/lib.rs:129, 144). */
  function CompileUrl(compiler: string): (url: string)
    ensures |url| == |CompileUrlPrefix| + |compiler| + |CompileUrlSuffix|
    ensures url[..|CompileUrlPrefix|] == CompileUrlPrefix
    ensures url[|CompileUrlPrefix|..|url| - |CompileUrlSuffix|] == compiler
    ensures url[|url| - |CompileUrlSuffix|..] == CompileUrlSuffix
  {
    CompileUrlPrefix + compiler + CompileUrlSuffix
  }
}
