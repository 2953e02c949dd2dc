/** The metadata store of src/store/useDocStore.ts: one mutable record holding
    the active document id, three per-document maps (reveal offset, title,
    imported file name) and the global reveal rate, with the six actions
    that replace its fields. */
module Store {
  import opened Base

  /** `Number.MAX_SAFE_INTEGER`, 2^53 - 1: the only upper cap `reveal` applies. */
  const MAX_SAFE_INTEGER: int := 9_007_199_254_740_991

  /** Characters revealed per keystroke in a fresh store. */
  const INITIAL_RATE: int := 2

  datatype Rate = Rate(charsPerKeystroke: int)

  /** `Partial<Rate>`: a field left out is `None`. */
  datatype RatePatch = RatePatch(charsPerKeystroke: Option<int>)

  /** The record `partialize` hands to persistence: exactly the data fields,
      none of the actions. */
  datatype Snapshot = Snapshot(
    docId: Option<string>,
    progressByDoc: map<string, int>,
    titleByDoc: map<string, string>,
    fileNameByDoc: map<string, string>,
    rate: Rate)

  /** `progressByDoc[id] ?? 0`: a document without an entry is at offset 0. */
  function Offset(progressByDoc: map<string, int>, id: string): (prev: int)
    ensures id in progressByDoc ==> prev == progressByDoc[id]
    ensures id !in progressByDoc ==> prev == 0
    ensures OffsetsInRange(progressByDoc) ==> 0 <= prev <= MAX_SAFE_INTEGER
  {
    if id in progressByDoc then progressByDoc[id] else 0
  }

  /** The offset `reveal(n)` stores: the previous offset moved by `n`, floored
      at 0 and capped at MAX_SAFE_INTEGER (never at the text length). */
  function NextOffset(prev: int, n: int): (next: int)
    ensures 0 <= next <= MAX_SAFE_INTEGER
    ensures 0 <= prev + n <= MAX_SAFE_INTEGER ==> next == prev + n
    ensures prev + n < 0 ==> next == 0
    ensures MAX_SAFE_INTEGER < prev + n ==> next == MAX_SAFE_INTEGER
  {
    Max(0, Min(prev + n, MAX_SAFE_INTEGER))
  }

  /** Every recorded offset lies where `reveal` can put it. */
  ghost predicate OffsetsInRange(progressByDoc: map<string, int>) {
    forall id :: id in progressByDoc ==> 0 <= progressByDoc[id] <= MAX_SAFE_INTEGER
  }

  /** Away from both bounds, revealing `n` and then `-n` gives back the offset. */
  lemma RevealThenUnreveal(prev: int, n: int)
    requires 0 <= prev <= MAX_SAFE_INTEGER
    requires 0 <= prev + n <= MAX_SAFE_INTEGER
    ensures NextOffset(NextOffset(prev, n), -n) == prev
  {
  }

  /** Retreating from offset 0 is not an error: the offset stays 0. */
  lemma RetreatAtZero(k: int)
    requires 0 <= k
    ensures NextOffset(0, -k) == 0
  {
  }

  /** Advancing by a non-negative amount never lowers an in-range offset, and
      retreating by one never raises it. */
  lemma RevealMonotone(prev: int, k: int)
    requires 0 <= prev <= MAX_SAFE_INTEGER
    requires 0 <= k
    ensures prev <= NextOffset(prev, k) <= prev + k
    ensures prev - k <= NextOffset(prev, -k) <= prev
  {
  }

  class DocStore {
    var docId: Option<string>
    var progressByDoc: map<string, int>
    var titleByDoc: map<string, string>
    var fileNameByDoc: map<string, string>
    var rate: Rate

    ghost predicate Valid()
      reads this
    {
      OffsetsInRange(progressByDoc)
    }

    /** The persisted state (`partialize`). */
    function Persisted(): (s: Snapshot)
      reads this
      ensures s.docId == docId && s.rate == rate
      ensures s.progressByDoc == progressByDoc && s.titleByDoc == titleByDoc
      ensures s.fileNameByDoc == fileNameByDoc
    {
      Snapshot(docId, progressByDoc, titleByDoc, fileNameByDoc, rate)
    }

    constructor ()
      ensures Valid()
      ensures Persisted() == Snapshot(None, map[], map[], map[], Rate(INITIAL_RATE))
    {
      docId := None;
      progressByDoc := map[];
      titleByDoc := map[];
      fileNameByDoc := map[];
      rate := Rate(INITIAL_RATE);
    }

    /** `setDocId(id)`: selects the active document; the maps are untouched. */
    method SetDocId(id: Option<string>)
      requires Valid()
      modifies this
      ensures Valid()
      ensures docId == id
      ensures Persisted() == old(Persisted()).(docId := id)
    {
      docId := id;
    }

    /** `reveal(n)`: moves the active document's offset by `n`. */
    method Reveal(n: int)
      requires Valid()
      modifies this
      ensures Valid()
      ensures !IsSet(old(docId)) ==> Persisted() == old(Persisted())
      ensures IsSet(old(docId)) ==>
        progressByDoc == old(progressByDoc)[old(docId).value :=
          NextOffset(Offset(old(progressByDoc), old(docId).value), n)]
      ensures forall other :: (!IsSet(old(docId)) || other != old(docId).value) ==>
        Offset(progressByDoc, other) == Offset(old(progressByDoc), other)
      ensures docId == old(docId) && rate == old(rate)
      ensures titleByDoc == old(titleByDoc) && fileNameByDoc == old(fileNameByDoc)
    {
      if !IsSet(docId) {
        return;
      }
      var id := docId.value;
      var prev := Offset(progressByDoc, id);
      var next := NextOffset(prev, n);
      progressByDoc := progressByDoc[id := next];
    }

    /** `setRate(r)`: overwrites the fields `r` supplies and keeps the rest. */
    method SetRate(r: RatePatch)
      requires Valid()
      modifies this
      ensures Valid()
      ensures r.charsPerKeystroke.Some? ==> rate == Rate(r.charsPerKeystroke.value)
      ensures r.charsPerKeystroke.None? ==> rate == old(rate)
      ensures Persisted() == old(Persisted()).(rate := rate)
    {
      rate := Rate(r.charsPerKeystroke.GetOr(rate.charsPerKeystroke));
    }

    /** `setTitle(title)`: records the active document's title, if any. */
    method SetTitle(title: string)
      requires Valid()
      modifies this
      ensures Valid()
      ensures !IsSet(docId) ==> Persisted() == old(Persisted())
      ensures IsSet(docId) ==>
        Persisted() == old(Persisted()).(titleByDoc := old(titleByDoc)[docId.value := title])
    {
      if !IsSet(docId) {
        return;
      }
      titleByDoc := titleByDoc[docId.value := title];
    }

    /** `setFileName(name)`: records the active document's file name, if any. */
    method SetFileName(name: string)
      requires Valid()
      modifies this
      ensures Valid()
      ensures !IsSet(docId) ==> Persisted() == old(Persisted())
      ensures IsSet(docId) ==>
        Persisted() == old(Persisted()).(fileNameByDoc := old(fileNameByDoc)[docId.value := name])
    {
      if !IsSet(docId) {
        return;
      }
      fileNameByDoc := fileNameByDoc[docId.value := name];
    }

    /** `clearCurrent()`: forgets everything recorded for the active document
        and deselects it; other documents keep their entries. */
    method ClearCurrent()
      requires Valid()
      modifies this
      ensures Valid()
      ensures !IsSet(old(docId)) ==> Persisted() == old(Persisted())
      ensures IsSet(old(docId)) ==>
        var id := old(docId).value;
        && docId == None
        && progressByDoc == old(progressByDoc) - {id}
        && titleByDoc == old(titleByDoc) - {id}
        && fileNameByDoc == old(fileNameByDoc) - {id}
      ensures IsSet(old(docId)) ==>
        var id := old(docId).value;
        id !in progressByDoc && id !in titleByDoc && id !in fileNameByDoc
      ensures rate == old(rate)
    {
      if !IsSet(docId) {
        return;
      }
      var id := docId.value;
      docId := None;
      progressByDoc := progressByDoc - {id};
      titleByDoc := titleByDoc - {id};
      fileNameByDoc := fileNameByDoc - {id};
    }
  }
}
