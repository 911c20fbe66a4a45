/**
 * The merge inside `get_compilers_with_fields` and `get_compilers_with_all_fields`
 * (src/lib.rs:48-56, 67-75): one response body decoded as a list of compilers and as a list
 * of additional-field records, the two lists zipped by position, and each record attached
 * to its compiler.
 */
module MetadataMerge {

  import opened Wrappers
  import opened Schema

  function Min(a: nat, b: nat): nat
  {
    if a <= b then a else b
  }

  /** `comp.additional_fields = Some(field)`: the slot is overwritten, nothing else changes. */
  function Attach(c: Compiler, f: AdditionalFields): Compiler
  {
    c.(additionalFields := Some(f))
  }

  /**
   * The strict zip: element i is compiler i with record i attached, and the result stops
   * at the shorter list.
   */
  function ZipAttach(compilers: seq<Compiler>, fields: seq<AdditionalFields>): (merged: seq<Compiler>)
    ensures |merged| == Min(|compilers|, |fields|)
    ensures forall i :: 0 <= i < |merged| ==>
      Base(merged[i]) == Base(compilers[i]) && merged[i].additionalFields == Some(fields[i])
  {
    if |compilers| == 0 || |fields| == 0 then []
    else [Attach(compilers[0], fields[0])] + ZipAttach(compilers[1..], fields[1..])
  }

  /** A compiler is determined by its base record and its slot. */
  lemma BaseAndSlotDetermine(a: Compiler, b: Compiler)
    requires Base(a) == Base(b) && a.additionalFields == b.additionalFields
    ensures a == b
  {
  }

  /** Every merged compiler carries its additional fields. */
  lemma ZipAttachAllAttached(compilers: seq<Compiler>, fields: seq<AdditionalFields>)
    ensures forall c :: c in ZipAttach(compilers, fields) ==> c.additionalFields.Some?
  {
  }

  /**
   * The merge ignores whatever the base decode left in the slot: compilers that agree on
   * everything but `additionalFields` merge to the same list.
   */
  lemma {:induction false} ZipAttachIgnoresPriorSlot(compilers: seq<Compiler>, others: seq<Compiler>, fields: seq<AdditionalFields>)
    requires |compilers| == |others|
    requires forall i :: 0 <= i < |compilers| ==> Base(compilers[i]) == Base(others[i])
    ensures ZipAttach(compilers, fields) == ZipAttach(others, fields)
  {
  }

  /** Mismatched lengths: the merge is the merge of the two equal-length prefixes. */
  lemma {:induction false} ZipAttachTruncates(compilers: seq<Compiler>, fields: seq<AdditionalFields>)
    ensures var n := Min(|compilers|, |fields|);
      ZipAttach(compilers, fields) == ZipAttach(compilers[..n], fields[..n])
  {
  }

  /** The base records of a merged list, with the slot cleared. */
  function Bases(merged: seq<Compiler>): (bases: seq<Compiler>)
    ensures |bases| == |merged|
    ensures forall i :: 0 <= i < |bases| ==> bases[i] == Base(merged[i])
  {
    seq(|merged|, i requires 0 <= i < |merged| => Base(merged[i]))
  }

  /** The attached records of a merged list whose every compiler carries one. */
  function Attachments(merged: seq<Compiler>): (fields: seq<AdditionalFields>)
    requires forall i :: 0 <= i < |merged| ==> merged[i].additionalFields.Some?
    ensures |fields| == |merged|
    ensures forall i :: 0 <= i < |fields| ==> merged[i].additionalFields == Some(fields[i])
  {
    seq(|merged|, i requires 0 <= i < |merged| => merged[i].additionalFields.value)
  }

  /** Separating a merged list gives back the zipped prefixes of the two decodes. */
  lemma {:induction false} UnzipZipAttach(compilers: seq<Compiler>, fields: seq<AdditionalFields>)
    ensures var merged := ZipAttach(compilers, fields);
      var n := Min(|compilers|, |fields|);
      && (forall i :: 0 <= i < |merged| ==> merged[i].additionalFields.Some?)
      && Bases(merged) == Bases(compilers[..n])
      && Attachments(merged) == fields[..n]
  {
  }

  /** Zipping the two halves of a fully attached list gives the list back. */
  lemma {:induction false} ZipAttachUnzip(merged: seq<Compiler>)
    requires forall i :: 0 <= i < |merged| ==> merged[i].additionalFields.Some?
    ensures ZipAttach(Bases(merged), Attachments(merged)) == merged
  {
  }

  /**
   * The loop of src/lib.rs:50-55: walk the decoded compilers in place (`iter_mut`), paired
   * with the decoded records (`zip`), overwrite each slot and collect a copy of the updated
   * compiler, stopping at the shorter list.
   */
  method AttachAll(compilers: seq<Compiler>, fields: seq<AdditionalFields>) returns (merged: seq<Compiler>)
    ensures merged == ZipAttach(compilers, fields)
  {
    var comps := new Compiler[|compilers|](i requires 0 <= i < |compilers| => compilers[i]);
    var n := Min(|compilers|, |fields|);
    merged := [];
    var i := 0;
    while i < n
      invariant 0 <= i <= n
      invariant |merged| == i
      invariant comps.Length == |compilers|
      invariant forall k :: i <= k < comps.Length ==> comps[k] == compilers[k]
      invariant forall k :: 0 <= k < i ==> merged[k] == Attach(compilers[k], fields[k])
    {
      comps[i] := comps[i].(additionalFields := Some(fields[i]));
      merged := merged + [comps[i]];
      i := i + 1;
    }
    ghost var spec := ZipAttach(compilers, fields);
    forall k | 0 <= k < n
      ensures merged[k] == spec[k]
    {
      BaseAndSlotDetermine(merged[k], spec[k]);
    }
  }

  /**
   * The outcome of the merge given the outcomes of the two decodes, in the order the
   * source evaluates them: the compiler list first, then the additional-field list.
   */
  function MergedListing(compilers: Option<seq<Compiler>>, fields: Option<seq<AdditionalFields>>): (r: Result<seq<Compiler>, Error>)
    ensures r.Success? <==> compilers.Some? && fields.Some?
    ensures compilers.None? ==> r == Failure(DecodeError(CompilerList))
    ensures compilers.Some? && fields.None? ==> r == Failure(DecodeError(AdditionalFieldsList))
    ensures r.Success? ==> |r.value| == Min(|compilers.value|, |fields.value|)
    ensures r.Success? ==> forall i :: 0 <= i < |r.value| ==>
      Base(r.value[i]) == Base(compilers.value[i]) && r.value[i].additionalFields == Some(fields.value[i])
  {
    match compilers
    case None => Failure(DecodeError(CompilerList))
    case Some(cs) =>
      match fields
      case None => Failure(DecodeError(AdditionalFieldsList))
      case Some(fs) => Success(ZipAttach(cs, fs))
  }

  /** The two `?` decodes followed by the loop. */
  method MergeDecodes(compilers: Option<seq<Compiler>>, fields: Option<seq<AdditionalFields>>) returns (r: Result<seq<Compiler>, Error>)
    ensures r == MergedListing(compilers, fields)
  {
    if compilers.None? {
      return Failure(DecodeError(CompilerList));
    }
    if fields.None? {
      return Failure(DecodeError(AdditionalFieldsList));
    }
    var merged := AttachAll(compilers.value, fields.value);
    r := Success(merged);
  }
}
