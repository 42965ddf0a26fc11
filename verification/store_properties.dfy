/**
 * Properties of the Vesper record store that span more than one call: what a read sees after a
 * write, the order of the history, uniqueness of reading ids, idempotence of the tag operations,
 * export/import round trips and reset.
 */
module StoreProperties {
  import opened Wrappers
  import opened Seqs
  import opened Schema
  import opened Documents
  import opened Storage

  // ---------------------------------------------------------------------------
  // Reading back what was written
  // ---------------------------------------------------------------------------

  /** A document of the current version or later, once written, is exactly what the next read returns. */
  lemma LoadAfterSave(s: Substrate, d: Document)
    requires s.available && s.fault == NoFault
    requires d.schemaVersion >= CurrentSchemaVersion
    ensures Load(Save(s, d).after) == Loaded(Ok(d), Save(s, d).after)
  {
  }

  /**
   * After a read-modify-write cycle whose write went through on an available substrate, the next
   * read returns the edited document and writes nothing.
   */
  lemma CommitThenLoad(s: Substrate, edit: Document -> Document)
    requires s.available
    requires Commit(s, edit).status.Pass?
    requires edit(Load(s).doc.value).schemaVersion >= CurrentSchemaVersion
    ensures Load(s).doc.Ok?
    ensures Load(Commit(s, edit).after) == Loaded(Ok(edit(Load(s).doc.value)), Commit(s, edit).after)
  {
    var l := Load(s);
    assert l.doc.Ok?;
    LoadAfterSave(l.after, edit(l.doc.value));
  }

  /**
   * A stored document older than version 1 is read back at version 1 and, on a healthy substrate,
   * written back in that form; when the write-back fails the read throws ParseError.
   */
  lemma OldVersionMigratesOnRead(s: Substrate)
    requires s.available && s.slot.Doc? && s.slot.doc.schemaVersion < CurrentSchemaVersion
    ensures var m := s.slot.doc.(schemaVersion := CurrentSchemaVersion);
            Load(s) == if s.fault == NoFault then Loaded(Ok(m), s.(slot := Doc(m))) else Loaded(Err(ParseError), s)
  {
  }

  /** A read of a stored document of the current version or later writes nothing. */
  lemma CurrentVersionReadWritesNothing(s: Substrate)
    requires s.available && s.slot.Doc? && s.slot.doc.schemaVersion >= CurrentSchemaVersion
    ensures Load(s) == Loaded(Ok(s.slot.doc), s)
  {
  }

  /**
   * With defaults that are values: on a store whose probe fails, a read-modify-write reports
   * success and writes nothing, and the next read sees the default document again.
   */
  lemma UnavailableReadsDefaults(s: Substrate, edit: Document -> Document)
    requires !s.available
    ensures Commit(s, edit) == Saved(Pass, s)
    ensures Load(Commit(s, edit).after) == Loaded(Ok(DefaultDocument), s)
  {
  }

  // ---------------------------------------------------------------------------
  // Reading history
  // ---------------------------------------------------------------------------

  function AddEdit(r: Reading): Document -> Document {
    (d: Document) => d.(history := [r] + d.history)
  }

  /**
   * addReading on a healthy substrate: the next read sees the new reading at the front and the
   * old history, in its old order, behind it; nothing else in the document changes.
   */
  lemma AddReadingPrepends(s: Substrate, draft: ReadingDraft, id: string, now: int)
    requires s.available && s.fault == NoFault && Load(s).doc.Ok?
    ensures var r := Stamped(draft, id, now);
            var after := Commit(s, AddEdit(r)).after;
            Load(after).doc == Ok(Load(s).doc.value.(history := [r] + Load(s).doc.value.history))
  {
    var r := Stamped(draft, id, now);
    CommitThenLoad(s, AddEdit(r));
  }

  /** Adding R1 and then R2 puts R2 first and R1 second, ahead of the old history. */
  lemma AddTwoReadings(s: Substrate, r1: Reading, r2: Reading)
    requires s.available && s.fault == NoFault && Load(s).doc.Ok?
    ensures var s2 := Commit(Commit(s, AddEdit(r1)).after, AddEdit(r2)).after;
            Load(s2).doc.Ok? && Load(s2).doc.value.history == [r2, r1] + Load(s).doc.value.history
  {
    var s1 := Commit(s, AddEdit(r1)).after;
    CommitThenLoad(s, AddEdit(r1));
    CommitThenLoad(s1, AddEdit(r2));
  }

  /** Prepending a reading whose id is new keeps the ids of the history distinct. */
  lemma AddKeepsIdsUnique(h: seq<Reading>, r: Reading)
    requires UniqueIds(h) && !HasId(h, r.id)
    ensures UniqueIds([r] + h)
  {
    var h' := [r] + h;
    forall i, j | 0 <= i < j < |h'| ensures h'[i].id != h'[j].id {
      if i == 0 {
        assert h'[j] == h[j - 1];
      } else {
        assert h'[i] == h[i - 1] && h'[j] == h[j - 1];
      }
    }
  }

  /** Updating a reading in place keeps the ids of the history distinct. */
  lemma UpdateKeepsIdsUnique(h: seq<Reading>, i: nat, patch: ReadingPatch)
    requires i < |h| && UniqueIds(h)
    ensures UniqueIds(h[i := PatchedReading(h[i], patch)])
  {
  }

  /** A subsequence of a history with distinct ids has distinct ids. */
  lemma {:induction false} SubsequenceKeepsIdsUnique(a: seq<Reading>, b: seq<Reading>)
    requires IsSubsequence(a, b) && UniqueIds(b)
    ensures UniqueIds(a)
    decreases |b|
  {
    if a != [] {
      assert UniqueIds(b[1..]) by {
        forall i, j | 0 <= i < j < |b[1..]| ensures b[1..][i].id != b[1..][j].id {
          assert b[1..][i] == b[i + 1] && b[1..][j] == b[j + 1];
        }
      }
      if a[0] == b[0] && IsSubsequence(a[1..], b[1..]) {
        SubsequenceKeepsIdsUnique(a[1..], b[1..]);
        SubsequenceElements(a[1..], b[1..]);
        forall i, j | 0 <= i < j < |a| ensures a[i].id != a[j].id {
          if i == 0 {
            assert a[j] == a[1..][j - 1] && a[1..][j - 1] in a[1..];
            var k :| 0 <= k < |b[1..]| && b[1..][k] == a[j];
            assert b[k + 1] == a[j];
          } else {
            assert a[i] == a[1..][i - 1] && a[j] == a[1..][j - 1];
          }
        }
      } else {
        SubsequenceKeepsIdsUnique(a, b[1..]);
      }
    }
  }

  /** Deleting by id keeps the ids of the history distinct. */
  lemma DeleteKeepsIdsUnique(h: seq<Reading>, id: string)
    requires UniqueIds(h)
    ensures UniqueIds(WithoutId(h, id))
  {
    SubsequenceKeepsIdsUnique(WithoutId(h, id), h);
  }

  /** Deleting the reading just added, when its id was new, gives back the history from before. */
  lemma DeleteUndoesAdd(h: seq<Reading>, r: Reading)
    requires !HasId(h, r.id)
    ensures WithoutId([r] + h, r.id) == h
  {
    var keep := (x: Reading) => x.id != r.id;
    FilterCons(r, h, keep);
    FilterAll(h, keep);
  }

  /**
   * updateReading with a known id on a healthy substrate: the next read sees the same history
   * with that one reading replaced, at the same index, by the patched reading, which keeps its
   * id and timestamp; every other reading and the rest of the document are unchanged.
   */
  lemma UpdateReadingInPlace(s: Substrate, id: string, patch: ReadingPatch)
    requires s.available && s.fault == NoFault && Load(s).doc.Ok?
    requires HasId(Load(s).doc.value.history, id)
    ensures var d := Load(s).doc.value;
            var i := FindIndex(d.history, id);
            var res := ReadingUpdated(s, id, patch);
            && 0 <= i < |d.history|
            && res.0 == Ok(Some(PatchedReading(d.history[i], patch)))
            && Load(res.1).doc == Ok(d.(history := d.history[i := PatchedReading(d.history[i], patch)]))
  {
    var l := Load(s);
    var d := l.doc.value;
    var i := FindIndex(d.history, id);
    LoadAfterSave(l.after, d.(history := d.history[i := PatchedReading(d.history[i], patch)]));
  }

  /** An update or delete with an unknown id writes nothing and reports the miss. */
  lemma UnknownIdWritesNothing(s: Substrate, id: string, patch: ReadingPatch)
    requires Load(s).doc.Ok? && !HasId(Load(s).doc.value.history, id)
    ensures ReadingUpdated(s, id, patch) == (Ok(None), Load(s).after)
    ensures ReadingDeleted(s, id) == (Ok(false), Load(s).after)
  {
  }

  /**
   * deleteReading with a known id on a healthy substrate: it reports true and the next read sees
   * the history without any reading carrying that id, survivors in their old order.
   */
  lemma DeleteReadingRemoves(s: Substrate, id: string)
    requires s.available && s.fault == NoFault && Load(s).doc.Ok?
    requires HasId(Load(s).doc.value.history, id)
    ensures var d := Load(s).doc.value;
            var res := ReadingDeleted(s, id);
            res.0 == Ok(true) && Load(res.1).doc == Ok(d.(history := WithoutId(d.history, id)))
  {
    var l := Load(s);
    var d := l.doc.value;
    LoadAfterSave(l.after, d.(history := WithoutId(d.history, id)));
  }

  // ---------------------------------------------------------------------------
  // Daily draw
  // ---------------------------------------------------------------------------

  function DrawEdit(draw: Option<DailyDraw>): Document -> Document {
    (d: Document) => d.(dailyDraw := draw)
  }

  /** After clearDailyDraw has gone through, a new daily draw is needed whatever today is. */
  lemma ClearedDrawNeedsNew(s: Substrate, today: string)
    requires Commit(s, DrawEdit(None)).status.Pass?
    ensures Answer(Commit(s, DrawEdit(None)).after, (d: Document) => NeedsNewDraw(d.dailyDraw, today)) == Ok(true)
  {
    if s.available {
      CommitThenLoad(s, DrawEdit(None));
    }
  }

  /**
   * After updateDailyDraw on a healthy substrate, a new draw is needed exactly when the stored
   * draw's date differs from today's.
   */
  lemma UpdatedDrawNeedsNewIffOtherDay(s: Substrate, draw: DailyDraw, today: string)
    requires s.available && s.fault == NoFault && Load(s).doc.Ok?
    ensures Answer(Commit(s, DrawEdit(Some(draw))).after, (d: Document) => NeedsNewDraw(d.dailyDraw, today))
            == Ok(draw.lastDrawDate != today)
  {
    CommitThenLoad(s, DrawEdit(Some(draw)));
  }

  // ---------------------------------------------------------------------------
  // Tag vocabulary
  // ---------------------------------------------------------------------------

  /** A second addTag of the same tag to the same category writes nothing. */
  lemma AddTagTwiceIsNoOp(s: Substrate, c: Category, tag: string)
    requires TagAdded(s, c, tag).status.Pass?
    ensures TagAdded(TagAdded(s, c, tag).after, c, tag) == Saved(Pass, TagAdded(s, c, tag).after)
  {
    var l := Load(s);
    var s1 := TagAdded(s, c, tag).after;
    if s.available {
      assert l.doc.Ok?;
      var t := AddTagTo(l.doc.value.tags, c, tag);
      if tag !in TagsIn(l.doc.value.tags, c) {
        LoadAfterSave(l.after, l.doc.value.(tags := t));
      } else {
        assert Load(s1) == Loaded(Ok(l.doc.value), s1);
      }
    }
  }

  /**
   * removeTag on a healthy substrate: the next read sees the tag gone from that category, the
   * other category as before, and every reading, its tags included, as before.
   */
  lemma RemoveTagLeavesReadings(s: Substrate, c: Category, tag: string)
    requires s.available && s.fault == NoFault && Load(s).doc.Ok?
    ensures var edit := (d: Document) => d.(tags := RemoveTagFrom(d.tags, c, tag));
            var d := Load(s).doc.value;
            var d' := Load(Commit(s, edit).after).doc;
            && d'.Ok?
            && tag !in TagsIn(d'.value.tags, c)
            && TagsIn(d'.value.tags, Other(c)) == TagsIn(d.tags, Other(c))
            && d'.value.history == d.history
  {
    var edit := (d: Document) => d.(tags := RemoveTagFrom(d.tags, c, tag));
    CommitThenLoad(s, edit);
  }

  /**
   * addTag on a healthy substrate: the next read sees the tag in that category, the other
   * category as before, and every reading as before.
   */
  lemma AddTagLeavesReadings(s: Substrate, c: Category, tag: string)
    requires s.available && s.fault == NoFault && Load(s).doc.Ok?
    ensures var d := Load(s).doc.value;
            var d' := Load(TagAdded(s, c, tag).after).doc;
            && d'.Ok?
            && tag in TagsIn(d'.value.tags, c)
            && TagsIn(d'.value.tags, Other(c)) == TagsIn(d.tags, Other(c))
            && d'.value.history == d.history
  {
    var l := Load(s);
    var d := l.doc.value;
    if tag !in TagsIn(d.tags, c) {
      LoadAfterSave(l.after, d.(tags := AddTagTo(d.tags, c, tag)));
    }
  }

  // ---------------------------------------------------------------------------
  // Export, import and reset
  // ---------------------------------------------------------------------------

  /**
   * Exporting a store and importing the text into a healthy substrate makes that substrate read
   * back exactly the exported document.
   */
  lemma ExportImportRoundTrip(s: Substrate, target: Substrate)
    requires Load(s).doc.Ok?
    requires target.available && target.fault == NoFault
    ensures var text := Answer(s, (d: Document) => Encoded(d));
            && text.Ok?
            && Imported(target, text.value).status.Pass?
            && Load(Imported(target, text.value).after).doc == Load(s).doc
  {
    var d := Load(s).doc.value;
    LoadAfterSave(target, d);
  }

  /** A failed import changes nothing: every later read sees what it would have seen before. */
  lemma FailedImportKeepsState(s: Substrate, t: Text)
    requires Imported(s, t).status.Fail?
    ensures Imported(s, t).after == s
    ensures Load(Imported(s, t).after) == Load(s)
  {
  }

  /** A quota failure while importing surfaces as a parse error, not as a quota error. */
  lemma ImportQuotaIsParseError(s: Substrate, d: Document)
    requires s.available && s.fault == QuotaFault
    ensures Imported(s, Encoded(d)) == Saved(Fail(ParseError), s)
  {
  }

  /** Once resetAllData has gone through, the next read returns the default document exactly. */
  lemma ResetRestoresDefaults(s: Substrate)
    requires Save(s, DefaultDocument).status.Pass?
    ensures Load(Save(s, DefaultDocument).after).doc == Ok(DefaultDocument)
  {
    if s.available {
      LoadAfterSave(s, DefaultDocument);
    }
  }

  /**
   * On a first run (nothing stored) on a healthy substrate, adding a reading and then resetting
   * leaves the default document, with an empty history.
   */
  lemma ResetAfterFirstReading(available: bool, r: Reading)
    ensures var s := Substrate(Absent, available, NoFault);
            var s1 := Commit(s, AddEdit(r)).after;
            Load(Save(s1, DefaultDocument).after).doc == Ok(DefaultDocument)
  {
    var s := Substrate(Absent, available, NoFault);
    ResetRestoresDefaults(Commit(s, AddEdit(r)).after);
  }

  /**
   * With defaults that are values: after setting one preference and then resetPreferences on a
   * healthy substrate, the next read has the default preferences and the rest of the document as
   * it was before either call.
   */
  lemma ResetPreferencesRestoresDefaults(s: Substrate, setting: PreferenceSetting)
    requires s.available && s.fault == NoFault && Load(s).doc.Ok?
    ensures var setOne := (d: Document) => d.(preferences := WithPreference(d.preferences, setting));
            var resetPrefs := (d: Document) => d.(preferences := DefaultPreferences);
            var s2 := Commit(Commit(s, setOne).after, resetPrefs).after;
            Load(s2).doc == Ok(Load(s).doc.value.(preferences := DefaultPreferences))
  {
    var setOne := (d: Document) => d.(preferences := WithPreference(d.preferences, setting));
    var resetPrefs := (d: Document) => d.(preferences := DefaultPreferences);
    CommitThenLoad(s, setOne);
    CommitThenLoad(Commit(s, setOne).after, resetPrefs);
  }
}
