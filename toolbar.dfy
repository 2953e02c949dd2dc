/** The toolbar rules of src/components/Toolbar.tsx: importing a text file
    into both stores, the rate input, the progress percentage, and the title
    and document-label fallbacks. */
module Toolbar {
  import opened Base
  import Store
  import Sources

  const UNTITLED: string := "Untitled document"
  const NO_DOCUMENT: string := "No document loaded"
  const LABEL_PREFIX: string := "Doc: "
  const ELLIPSIS: string := "\U{2026}"

  /** How many characters of the id a label without a file name shows. */
  const SHORT_ID_LENGTH: nat := 8

  /** A picked file: its name, its MIME type (possibly empty) and its text. */
  datatype File = File(name: string, mimeType: string, text: string)

  datatype PickOutcome =
    | NoFile               // the picker returned no file
    | Rejected             // a typed file that is not plain text
    | Imported(id: string) // stored and made active under this id

  /** The number input's value: empty, or an integer. */
  datatype RateInput = Empty | Numeral(value: int)

  /** The id an import stores the text under: the active document's id if
      there is one, otherwise the text's hash. */
  function ImportId(docId: Option<string>, text: string, sha1: string -> seq<Sources.Byte>): (id: string)
    requires |sha1(text)| == Sources.SHA1_DIGEST_LENGTH
    ensures id != ""
    ensures IsSet(docId) ==> id == docId.value
    ensures !IsSet(docId) ==> Sources.HexDecode(id) == Some(sha1(text))
  {
    if IsSet(docId) then docId.value else Sources.HashText(text, sha1)
  }

  /** `onFile(file)`: writes the text under the chosen id, makes that id
      active and records the file name for it. Titles, offsets and the rate
      are left alone. */
  method OnFile(store: Store.DocStore, db: Sources.SourceDb, file: File, sha1: string -> seq<Sources.Byte>)
    returns (id: string)
    requires store.Valid()
    requires |sha1(file.text)| == Sources.SHA1_DIGEST_LENGTH
    modifies store, db
    ensures store.Valid()
    ensures id == ImportId(old(store.docId), file.text, sha1)
    ensures IsSet(old(store.docId)) ==> id == old(store.docId).value
    ensures db.entries == old(db.entries)[Sources.Key(id) := file.text]
    ensures Sources.Lookup(db.entries, id) == Some(file.text)
    ensures store.docId == Some(id)
    ensures store.fileNameByDoc == old(store.fileNameByDoc)[id := file.name]
    ensures store.progressByDoc == old(store.progressByDoc)
    ensures store.titleByDoc == old(store.titleByDoc)
    ensures store.rate == old(store.rate)
  {
    id := ImportId(store.docId, file.text, sha1);
    db.WriteSource(id, file.text);
    if Some(id) != store.docId {
      store.SetDocId(Some(id));
    }
    store.SetFileName(file.name);
  }

  /** `onPick(e)`: imports the first picked file unless it declares a type
      other than plain text; a rejected or missing file changes nothing. */
  method OnPick(store: Store.DocStore, db: Sources.SourceDb, picked: Option<File>, sha1: string -> seq<Sources.Byte>)
    returns (outcome: PickOutcome)
    requires store.Valid()
    requires picked.Some? ==> |sha1(picked.value.text)| == Sources.SHA1_DIGEST_LENGTH
    modifies store, db
    ensures store.Valid()
    ensures picked.None? <==> outcome == NoFile
    ensures outcome == Rejected <==>
      picked.Some? && picked.value.mimeType != "" && picked.value.mimeType != "text/plain"
    ensures !outcome.Imported? ==>
      store.Persisted() == old(store.Persisted()) && db.entries == old(db.entries)
    ensures outcome.Imported? ==>
      && outcome.id == ImportId(old(store.docId), picked.value.text, sha1)
      && Sources.Lookup(db.entries, outcome.id) == Some(picked.value.text)
      && db.entries == old(db.entries)[Sources.Key(outcome.id) := picked.value.text]
      && store.docId == Some(outcome.id)
      && store.fileNameByDoc == old(store.fileNameByDoc)[outcome.id := picked.value.name]
      && store.progressByDoc == old(store.progressByDoc)
      && store.titleByDoc == old(store.titleByDoc)
      && store.rate == old(store.rate)
  {
    if picked.None? {
      return NoFile;
    }
    var f := picked.value;
    if f.mimeType != "" && f.mimeType != "text/plain" {
      return Rejected;
    }
    var id := OnFile(store, db, f, sha1);
    outcome := Imported(id);
  }

  /** Two imports in a row land under one id: the first makes its id
      active, and the second reuses the active id whatever its text, so the
      second text replaces the first and its file name is the one recorded. */
  method ImportTwice(store: Store.DocStore, db: Sources.SourceDb, first: File, second: File,
                     sha1: string -> seq<Sources.Byte>)
    returns (id1: string, id2: string)
    requires store.Valid()
    requires |sha1(first.text)| == Sources.SHA1_DIGEST_LENGTH
    requires |sha1(second.text)| == Sources.SHA1_DIGEST_LENGTH
    modifies store, db
    ensures store.Valid()
    ensures id1 == id2
    ensures id1 == ImportId(old(store.docId), first.text, sha1)
    ensures store.docId == Some(id1)
    ensures db.entries == old(db.entries)[Sources.Key(id1) := second.text]
    ensures Sources.Lookup(db.entries, id1) == Some(second.text)
    ensures forall other :: other != id1 ==>
      Sources.Lookup(db.entries, other) == Sources.Lookup(old(db.entries), other)
    ensures store.fileNameByDoc == old(store.fileNameByDoc)[id1 := second.name]
    ensures store.progressByDoc == old(store.progressByDoc)
    ensures store.titleByDoc == old(store.titleByDoc)
    ensures store.rate == old(store.rate)
  {
    id1 := OnFile(store, db, first, sha1);
    id2 := OnFile(store, db, second, sha1);
    forall other | other != id1
      ensures Sources.Lookup(db.entries, other) == Sources.Lookup(old(db.entries), other)
    {
      Sources.KeyInjective(other, id1);
    }
  }

  /** The rate the number input sets: `Math.max(1, Number(value || 1))`. */
  function RateFromInput(input: RateInput): (r: int)
    ensures r >= 1
    ensures input.Numeral? && input.value >= 1 ==> r == input.value
    ensures input.Empty? || input.value < 1 ==> r == 1
  {
    match input
    case Empty => 1
    case Numeral(v) => Max(1, v)
  }

  /** The rate input's `onChange`: the store's rate becomes the clamped value. */
  method OnRateChange(store: Store.DocStore, input: RateInput)
    requires store.Valid()
    modifies store
    ensures store.Valid()
    ensures store.rate.charsPerKeystroke >= 1
    ensures store.rate == Store.Rate(RateFromInput(input))
    ensures store.Persisted() == old(store.Persisted()).(rate := store.rate)
  {
    store.SetRate(Store.RatePatch(Some(RateFromInput(input))));
  }

  /** The displayed progress: the offset as a percentage of the document
      length, rounded to the nearest integer (halves up) and capped at 100;
      0 for an empty or missing document. */
  function Progress(revealIndex: int, docLength: nat): (p: int)
    ensures docLength == 0 ==> p == 0
    ensures p <= 100
    ensures 0 <= revealIndex ==> 0 <= p
    ensures 0 < docLength <= revealIndex ==> p == 100
    ensures 0 < docLength && p < 100 ==>
      200 * revealIndex - docLength < 2 * docLength * p <= 200 * revealIndex + docLength
    ensures 0 < docLength && p == 100 ==> 199 * docLength <= 200 * revealIndex
  {
    if docLength > 0 then
      var q := (200 * revealIndex + docLength) / (2 * docLength);
      RoundedShare(revealIndex, docLength, q);
      if 100 <= q then
        RoundedShareAtCap(revealIndex, docLength, q);
        100
      else q
    else 0
  }

  /** Facts about `q = floor((200 r + d) / (2 d))`, which is `Math.round(r / d * 100)`
      computed exactly. */
  lemma RoundedShare(r: int, d: nat, q: int)
    requires 0 < d
    requires q == (200 * r + d) / (2 * d)
    ensures 200 * r - d < 2 * d * q <= 200 * r + d
    ensures 0 <= r ==> 0 <= q
    ensures d <= r ==> 100 <= q
  {
    var m := (200 * r + d) % (2 * d);
    assert 200 * r + d == 2 * d * q + m;
    assert 0 <= m < 2 * d;
    if 0 <= r {
      assert (2 * d) * q > (2 * d) * -1;
      CancelFactor(2 * d, q, -1);
    }
    if d <= r {
      assert 200 * r - d >= 199 * d;
      assert (2 * d) * q > (2 * d) * 99;
      CancelFactor(2 * d, q, 99);
    }
  }

  /** A share that rounds to 100 or more means the offset is at least 99.5%
      of the length. */
  lemma RoundedShareAtCap(r: int, d: nat, q: int)
    requires 0 < d
    requires 200 * r - d < 2 * d * q <= 200 * r + d
    requires 100 <= q
    ensures 199 * d <= 200 * r
  {
    assert (2 * d) * (q - 100) >= 0;
    assert (2 * d) * q == (2 * d) * (q - 100) + 200 * d;
  }

  lemma CancelFactor(a: int, b: int, c: int)
    requires 0 < a && a * c < a * b
    ensures c < b
  {
    assert a * (b - c) == a * b - a * c > 0;
  }

  /** `currentTitle`: the active document's title, falling back to
      "Untitled document" when nothing is active or the title is missing or
      empty. The shown title is never empty. */
  function CurrentTitle(docId: Option<string>, titleByDoc: map<string, string>): (t: string)
    ensures t != ""
    ensures IsSet(docId) && docId.value in titleByDoc && titleByDoc[docId.value] != "" ==>
      t == titleByDoc[docId.value]
    ensures !(IsSet(docId) && docId.value in titleByDoc && titleByDoc[docId.value] != "") ==>
      t == UNTITLED
  {
    if IsSet(docId) && docId.value in titleByDoc && titleByDoc[docId.value] != "" then
      titleByDoc[docId.value]
    else UNTITLED
  }

  /** The title a finished edit commits: `tempTitle || 'Untitled document'`. */
  function CommittedTitle(tempTitle: string): (t: string)
    ensures t != ""
    ensures tempTitle != "" ==> t == tempTitle
    ensures tempTitle == "" ==> t == UNTITLED
  {
    if tempTitle != "" then tempTitle else UNTITLED
  }

  /** Committing a title edit (blur or Enter): the committed title is
      stored for the active document and is then the title shown. */
  method CommitTitleEdit(store: Store.DocStore, tempTitle: string)
    requires store.Valid()
    modifies store
    ensures store.Valid()
    ensures !IsSet(store.docId) ==> store.Persisted() == old(store.Persisted())
    ensures IsSet(store.docId) ==>
      && store.Persisted() == old(store.Persisted()).(titleByDoc :=
           old(store.titleByDoc)[store.docId.value := CommittedTitle(tempTitle)])
      && CurrentTitle(store.docId, store.titleByDoc) == CommittedTitle(tempTitle)
    ensures store.docId == old(store.docId)
  {
    store.SetTitle(CommittedTitle(tempTitle));
  }

  /** The document label: the recorded file name, or else the first eight
      characters of the id followed by an ellipsis; "No document loaded"
      when nothing is active. */
  function DocLabel(docId: Option<string>, fileNameByDoc: map<string, string>): (shown: string)
    ensures !IsSet(docId) ==> shown == NO_DOCUMENT
    ensures IsSet(docId) && docId.value in fileNameByDoc && fileNameByDoc[docId.value] != "" ==>
      shown == LABEL_PREFIX + fileNameByDoc[docId.value]
    ensures IsSet(docId) && !(docId.value in fileNameByDoc && fileNameByDoc[docId.value] != "") ==>
      exists short :: shown == LABEL_PREFIX + short + ELLIPSIS
        && short <= docId.value && |short| == Min(SHORT_ID_LENGTH, |docId.value|)
  {
    if !IsSet(docId) then NO_DOCUMENT
    else
      var id := docId.value;
      if id in fileNameByDoc && fileNameByDoc[id] != "" then LABEL_PREFIX + fileNameByDoc[id]
      else
        var short := SliceTo(id, SHORT_ID_LENGTH);
        LABEL_PREFIX + short + ELLIPSIS
  }
}
