/**
 * The Vesper record store of lib/storage.ts: one document held in one slot of a durable
 * key-value substrate (the browser's localStorage). Every operation reads the whole document,
 * works on a copy and writes the whole document back.
 *
 * JSON text is abstract here: a slot holds nothing, text that does not parse, or the text of a
 * document; `Text` is what exportData hands out and importData takes.
 */
module Storage {
  import opened Wrappers
  import opened Schema
  import opened Documents

  /** What `localStorage.getItem('vesper_data')` yields: nothing (or ""), unparseable text, or a document. */
  datatype Slot = Absent | Corrupt | Doc(doc: Document)

  /** How the substrate's `setItem` of the document behaves. */
  datatype Fault = NoFault | QuotaFault | OtherFault

  /**
   * The substrate as the store sees it: the slot, whether the availability probe
   * (isLocalStorageAvailable, a test write and delete) succeeds, and how a write of the document fails.
   */
  datatype Substrate = Substrate(slot: Slot, available: bool, fault: Fault)

  /** JSON text of a document, or text JSON.parse rejects. */
  datatype Text = Encoded(doc: Document) | Malformed

  /** What getData returns, and the substrate it leaves behind (a migration writes back). */
  datatype Loaded = Loaded(doc: Result<Document, StorageError>, after: Substrate)

  /** What setData ends with, and the substrate it leaves behind. */
  datatype Saved = Saved(status: Outcome<StorageError>, after: Substrate)

  /**
   * setData: with the probe failing it does nothing and reports nothing; otherwise the document
   * replaces the slot, or the write fails as QuotaExceeded on a quota error and as
   * SubstrateFailure on any other error, leaving the slot as it was.
   */
  function Save(s: Substrate, d: Document): (w: Saved)
    ensures w.after.available == s.available && w.after.fault == s.fault
    ensures w.status.Pass? <==> !s.available || s.fault == NoFault
    ensures w.after.slot == if s.available && s.fault == NoFault then Doc(d) else s.slot
    ensures s.fault == QuotaFault ==> w.status.Fail? ==> w.status.error == QuotaExceeded
    ensures s.fault == OtherFault ==> w.status.Fail? ==> w.status.error == SubstrateFailure
  {
    if !s.available then Saved(Pass, s)
    else
      match s.fault
      case NoFault => Saved(Pass, s.(slot := Doc(d)))
      case QuotaFault => Saved(Fail(QuotaExceeded), s)
      case OtherFault => Saved(Fail(SubstrateFailure), s)
  }

  /**
   * The document migrateSchema produces: an older version is raised to the current one, a
   * current or newer version is kept as it is, and nothing but the version changes.
   */
  function Migrated(d: Document): (m: Document)
    ensures m.schemaVersion >= CurrentSchemaVersion
    ensures m.schemaVersion == if d.schemaVersion < CurrentSchemaVersion then CurrentSchemaVersion else d.schemaVersion
    ensures m == d.(schemaVersion := m.schemaVersion)
  {
    if d.schemaVersion < CurrentSchemaVersion then d.(schemaVersion := CurrentSchemaVersion) else d
  }

  /**
   * getData. A failing probe or an empty slot yield the default document and leave the substrate
   * alone; unparseable text throws ParseError and never falls back to defaults; a stored document
   * comes back with a version of at least 1. Only a document older than version 1 makes it write:
   * the migrated document is stored, and a failing write surfaces as ParseError.
   */
  function Load(s: Substrate): (l: Loaded)
    ensures l.after.available == s.available && l.after.fault == s.fault
    ensures !s.available || s.slot.Absent? ==> l == Loaded(Ok(DefaultDocument), s)
    ensures s.available && s.slot.Corrupt? ==> l == Loaded(Err(ParseError), s)
    ensures l.doc.Err? ==> l.doc.error == ParseError && l.after == s
    ensures l.doc.Ok? ==> l.doc.value.schemaVersion >= CurrentSchemaVersion
    ensures s.available && s.slot.Doc? ==> l.doc.Ok? ==> l.doc.value == Migrated(s.slot.doc)
    ensures l.after != s ==> s.slot.Doc? && s.slot.doc.schemaVersion < CurrentSchemaVersion
                             && l.doc.Ok? && l.after.slot == Doc(l.doc.value)
  {
    if !s.available then Loaded(Ok(DefaultDocument), s)
    else
      match s.slot
      case Absent => Loaded(Ok(DefaultDocument), s)
      case Corrupt => Loaded(Err(ParseError), s)
      case Doc(d) =>
        if d.schemaVersion < CurrentSchemaVersion then
          var w := Save(s, Migrated(d));
          if w.status.Pass? then Loaded(Ok(Migrated(d)), w.after) else Loaded(Err(ParseError), s)
        else Loaded(Ok(d), s)
  }

  /** A read-only operation: `f` applied to the document getData produced, or getData's error. */
  function Answer<U>(s: Substrate, f: Document -> U): (r: Result<U, StorageError>)
    ensures r.Ok? <==> Load(s).doc.Ok?
    ensures r.Ok? ==> r.value == f(Load(s).doc.value)
  {
    var l := Load(s);
    if l.doc.Ok? then Ok(f(l.doc.value)) else Err(l.doc.error)
  }

  /** A read-modify-write cycle: getData, change the copy with `edit`, setData. */
  function Commit(s: Substrate, edit: Document -> Document): (w: Saved)
    ensures Load(s).doc.Err? ==> w == Saved(Fail(ParseError), s)
    ensures Load(s).doc.Ok? ==> w == Save(Load(s).after, edit(Load(s).doc.value))
  {
    var l := Load(s);
    if l.doc.Err? then Saved(Fail(l.doc.error), l.after) else Save(l.after, edit(l.doc.value))
  }

  /** An outcome carrying `value` when the write passed. */
  function Returning<T>(w: Saved, value: T): Result<T, StorageError> {
    if w.status.Pass? then Ok(value) else Err(w.status.error)
  }

  /** updateReading: the reading returned (None for an unknown id) and the substrate left behind. */
  function ReadingUpdated(s: Substrate, id: string, patch: ReadingPatch): (res: (Result<Option<Reading>, StorageError>, Substrate))
    ensures Load(s).doc.Ok? && !HasId(Load(s).doc.value.history, id) ==> res == (Ok(None), Load(s).after)
    ensures res.0.Ok? && res.0.value.Some? ==>
              Load(s).doc.Ok? && HasId(Load(s).doc.value.history, id) && res.0.value.value.id == id
  {
    var l := Load(s);
    if l.doc.Err? then (Err(l.doc.error), l.after)
    else
      var h := l.doc.value.history;
      var i := FindIndex(h, id);
      if i == -1 then (Ok(None), l.after)
      else
        var u := PatchedReading(h[i], patch);
        var w := Save(l.after, l.doc.value.(history := h[i := u]));
        (Returning(w, Some(u)), w.after)
  }

  /** deleteReading: whether a reading went, and the substrate left behind; nothing is written when none did. */
  function ReadingDeleted(s: Substrate, id: string): (res: (Result<bool, StorageError>, Substrate))
    ensures Load(s).doc.Ok? && !HasId(Load(s).doc.value.history, id) ==> res == (Ok(false), Load(s).after)
    ensures res.0 == Ok(true) ==> Load(s).doc.Ok? && HasId(Load(s).doc.value.history, id)
  {
    var l := Load(s);
    if l.doc.Err? then (Err(l.doc.error), l.after)
    else
      var h := l.doc.value.history;
      var kept := WithoutId(h, id);
      if |kept| < |h| then
        var w := Save(l.after, l.doc.value.(history := kept));
        (Returning(w, true), w.after)
      else (Ok(false), l.after)
  }

  /** addTag: the tag is appended and written only when the category lacks it. */
  function TagAdded(s: Substrate, c: Category, tag: string): (w: Saved)
    ensures Load(s).doc.Ok? && tag in TagsIn(Load(s).doc.value.tags, c) ==> w == Saved(Pass, Load(s).after)
  {
    var l := Load(s);
    if l.doc.Err? then Saved(Fail(l.doc.error), l.after)
    else if tag in TagsIn(l.doc.value.tags, c) then Saved(Pass, l.after)
    else Save(l.after, l.doc.value.(tags := AddTagTo(l.doc.value.tags, c, tag)))
  }

  /**
   * importData: text that does not parse throws ParseError and leaves the substrate as it was;
   * a parsed document replaces the stored one, and since every error inside is caught, a failing
   * write also surfaces as ParseError.
   */
  function Imported(s: Substrate, t: Text): (w: Saved)
    ensures t.Malformed? ==> w == Saved(Fail(ParseError), s)
    ensures w.status.Fail? ==> w.status.error == ParseError && w.after == s
    ensures t.Encoded? && w.status.Pass? ==> w.after == Save(s, t.doc).after
  {
    match t
    case Malformed => Saved(Fail(ParseError), s)
    case Encoded(d) =>
      var w := Save(s, d);
      if w.status.Pass? then w else Saved(Fail(ParseError), w.after)
  }

  /** What getStorageInfo reports. */
  datatype StorageInfo = StorageInfo(isAvailable: bool, estimatedSize: nat, readingCount: nat)

  /** The store: the substrate's slot, the outcome of its availability probe, and how its writes fail. */
  class VesperStore {
    var slot: Slot
    var available: bool
    var fault: Fault

    function State(): Substrate
      reads this
    {
      Substrate(slot, available, fault)
    }

    constructor (slot: Slot, available: bool, fault: Fault)
      ensures State() == Substrate(slot, available, fault)
    {
      this.slot := slot;
      this.available := available;
      this.fault := fault;
    }

    /** setData (lib/storage.ts:155-170). */
    method SetData(d: Document) returns (o: Outcome<StorageError>)
      modifies this`slot
      ensures Saved(o, State()) == Save(old(State()), d)
    {
      if !available {
        return Pass;
      }
      match fault
      case NoFault =>
        slot := Doc(d);
        o := Pass;
      case QuotaFault =>
        o := Fail(QuotaExceeded);
      case OtherFault =>
        o := Fail(SubstrateFailure);
    }

    /** migrateSchema (lib/storage.ts:175-186): an older document is raised to the current version and written. */
    method MigrateSchema(d: Document) returns (r: Result<Document, StorageError>)
      modifies this`slot
      ensures d.schemaVersion < CurrentSchemaVersion ==>
                var w := Save(old(State()), Migrated(d));
                State() == w.after && r == Returning(w, Migrated(d))
      ensures d.schemaVersion >= CurrentSchemaVersion ==> State() == old(State()) && r == Ok(d)
    {
      var migrated := d;
      if d.schemaVersion < CurrentSchemaVersion {
        migrated := d.(schemaVersion := CurrentSchemaVersion);
        var o := SetData(migrated);
        if o.Fail? {
          return Err(o.error);
        }
      }
      return Ok(migrated);
    }

    /** getData (lib/storage.ts:126-150). */
    method GetData() returns (r: Result<Document, StorageError>)
      modifies this`slot
      ensures Loaded(r, State()) == Load(old(State()))
    {
      if !available {
        return Ok(DefaultDocument);
      }
      match slot
      case Absent =>
        return Ok(DefaultDocument);
      case Corrupt =>
        return Err(ParseError);
      case Doc(d) =>
        if d.schemaVersion != CurrentSchemaVersion {
          var m := MigrateSchema(d);
          if m.Err? {
            // the catch block turns every error, the write-back's included, into a parse error
            return Err(ParseError);
          }
          return m;
        }
        return Ok(d);
    }

    // -------------------------------------------------------------------------
    // Preferences
    // -------------------------------------------------------------------------

    method GetPreference(key: PreferenceKey) returns (r: Result<PreferenceSetting, StorageError>)
      modifies this`slot
      ensures r == Answer(old(State()), (d: Document) => PreferenceOf(d.preferences, key))
      ensures State() == Load(old(State())).after
    {
      var data := GetData();
      if data.Err? {
        return Err(data.error);
      }
      return Ok(PreferenceOf(data.value.preferences, key));
    }

    method GetAllPreferences() returns (r: Result<Preferences, StorageError>)
      modifies this`slot
      ensures r == Answer(old(State()), (d: Document) => d.preferences)
      ensures State() == Load(old(State())).after
    {
      var data := GetData();
      if data.Err? {
        return Err(data.error);
      }
      return Ok(data.value.preferences);
    }

    method SetPreference(setting: PreferenceSetting) returns (o: Outcome<StorageError>)
      modifies this`slot
      ensures Saved(o, State()) == Commit(old(State()), (d: Document) => d.(preferences := WithPreference(d.preferences, setting)))
    {
      var data := GetData();
      if data.Err? {
        return Fail(data.error);
      }
      var doc := data.value;
      doc := doc.(preferences := WithPreference(doc.preferences, setting));
      o := SetData(doc);
    }

    method SetPreferences(patch: PreferencesPatch) returns (o: Outcome<StorageError>)
      modifies this`slot
      ensures Saved(o, State()) == Commit(old(State()), (d: Document) => d.(preferences := MergePreferences(d.preferences, patch)))
    {
      var data := GetData();
      if data.Err? {
        return Fail(data.error);
      }
      var doc := data.value;
      doc := doc.(preferences := MergePreferences(doc.preferences, patch));
      o := SetData(doc);
    }

    method ResetPreferences() returns (o: Outcome<StorageError>)
      modifies this`slot
      ensures Saved(o, State()) == Commit(old(State()), (d: Document) => d.(preferences := DefaultPreferences))
    {
      var data := GetData();
      if data.Err? {
        return Fail(data.error);
      }
      var doc := data.value.(preferences := DefaultPreferences);
      o := SetData(doc);
    }

    // -------------------------------------------------------------------------
    // Daily draw
    // -------------------------------------------------------------------------

    method GetDailyDraw() returns (r: Result<Option<DailyDraw>, StorageError>)
      modifies this`slot
      ensures r == Answer(old(State()), (d: Document) => d.dailyDraw)
      ensures State() == Load(old(State())).after
    {
      var data := GetData();
      if data.Err? {
        return Err(data.error);
      }
      return Ok(data.value.dailyDraw);
    }

    method UpdateDailyDraw(draw: DailyDraw) returns (o: Outcome<StorageError>)
      modifies this`slot
      ensures Saved(o, State()) == Commit(old(State()), (d: Document) => d.(dailyDraw := Some(draw)))
    {
      var data := GetData();
      if data.Err? {
        return Fail(data.error);
      }
      var doc := data.value.(dailyDraw := Some(draw));
      o := SetData(doc);
    }

    method ClearDailyDraw() returns (o: Outcome<StorageError>)
      modifies this`slot
      ensures Saved(o, State()) == Commit(old(State()), (d: Document) => d.(dailyDraw := None))
    {
      var data := GetData();
      if data.Err? {
        return Fail(data.error);
      }
      var doc := data.value.(dailyDraw := None);
      o := SetData(doc);
    }

    /** needsNewDailyDraw; `today` is the UTC calendar date, as `toISOString().split('T')[0]` gives it. */
    method NeedsNewDailyDraw(today: string) returns (r: Result<bool, StorageError>)
      modifies this`slot
      ensures r == Answer(old(State()), (d: Document) => NeedsNewDraw(d.dailyDraw, today))
      ensures State() == Load(old(State())).after
    {
      var draw := GetDailyDraw();
      if draw.Err? {
        return Err(draw.error);
      }
      if draw.value.None? {
        return Ok(true);
      }
      return Ok(draw.value.value.lastDrawDate != today);
    }

    // -------------------------------------------------------------------------
    // Reading history
    // -------------------------------------------------------------------------

    method GetReadingHistory() returns (r: Result<seq<Reading>, StorageError>)
      modifies this`slot
      ensures r == Answer(old(State()), (d: Document) => d.history)
      ensures State() == Load(old(State())).after
    {
      var data := GetData();
      if data.Err? {
        return Err(data.error);
      }
      return Ok(data.value.history);
    }

    method GetReading(id: string) returns (r: Result<Option<Reading>, StorageError>)
      modifies this`slot
      ensures r == Answer(old(State()), (d: Document) => FindReading(d.history, id))
      ensures State() == Load(old(State())).after
    {
      var data := GetData();
      if data.Err? {
        return Err(data.error);
      }
      return Ok(FindReading(data.value.history, id));
    }

    /**
     * addReading. `id` and `now` stand for generateReadingId() and Date.now(); the source does not
     * check that the id is new.
     */
    method AddReading(draft: ReadingDraft, id: string, now: int) returns (r: Result<Reading, StorageError>)
      modifies this`slot
      ensures var w := Commit(old(State()), (d: Document) => d.(history := [Stamped(draft, id, now)] + d.history));
              State() == w.after && r == Returning(w, Stamped(draft, id, now))
    {
      var data := GetData();
      if data.Err? {
        return Err(data.error);
      }
      var reading := Stamped(draft, id, now);
      var doc := data.value;
      doc := doc.(history := [reading] + doc.history);
      var o := SetData(doc);
      if o.Fail? {
        return Err(o.error);
      }
      return Ok(reading);
    }

    method UpdateReading(id: string, patch: ReadingPatch) returns (r: Result<Option<Reading>, StorageError>)
      modifies this`slot
      ensures (r, State()) == ReadingUpdated(old(State()), id, patch)
    {
      var data := GetData();
      if data.Err? {
        return Err(data.error);
      }
      var doc := data.value;
      var index := FindIndex(doc.history, id);
      if index == -1 {
        return Ok(None);
      }
      var updated := PatchedReading(doc.history[index], patch);
      doc := doc.(history := doc.history[index := updated]);
      var o := SetData(doc);
      if o.Fail? {
        return Err(o.error);
      }
      return Ok(Some(updated));
    }

    method DeleteReading(id: string) returns (r: Result<bool, StorageError>)
      modifies this`slot
      ensures (r, State()) == ReadingDeleted(old(State()), id)
    {
      var data := GetData();
      if data.Err? {
        return Err(data.error);
      }
      var doc := data.value;
      var initialLength := |doc.history|;
      doc := doc.(history := WithoutId(doc.history, id));
      if |doc.history| < initialLength {
        var o := SetData(doc);
        if o.Fail? {
          return Err(o.error);
        }
        return Ok(true);
      }
      return Ok(false);
    }

    method GetReadingsByTags(tags: seq<string>) returns (r: Result<seq<Reading>, StorageError>)
      modifies this`slot
      ensures r == Answer(old(State()), (d: Document) => ReadingsByTags(d.history, tags))
      ensures State() == Load(old(State())).after
    {
      var data := GetData();
      if data.Err? {
        return Err(data.error);
      }
      return Ok(ReadingsByTags(data.value.history, tags));
    }

    method GetReadingsByDateRange(startDate: int, endDate: int) returns (r: Result<seq<Reading>, StorageError>)
      modifies this`slot
      ensures r == Answer(old(State()), (d: Document) => ReadingsInRange(d.history, startDate, endDate))
      ensures State() == Load(old(State())).after
    {
      var data := GetData();
      if data.Err? {
        return Err(data.error);
      }
      return Ok(ReadingsInRange(data.value.history, startDate, endDate));
    }

    method ClearReadingHistory() returns (o: Outcome<StorageError>)
      modifies this`slot
      ensures Saved(o, State()) == Commit(old(State()), (d: Document) => d.(history := []))
    {
      var data := GetData();
      if data.Err? {
        return Fail(data.error);
      }
      var doc := data.value.(history := []);
      o := SetData(doc);
    }

    // -------------------------------------------------------------------------
    // Tag vocabulary
    // -------------------------------------------------------------------------

    method GetAvailableTags() returns (r: Result<Tags, StorageError>)
      modifies this`slot
      ensures r == Answer(old(State()), (d: Document) => d.tags)
      ensures State() == Load(old(State())).after
    {
      var data := GetData();
      if data.Err? {
        return Err(data.error);
      }
      return Ok(data.value.tags);
    }

    method AddTag(tag: string, category: Category) returns (o: Outcome<StorageError>)
      modifies this`slot
      ensures Saved(o, State()) == TagAdded(old(State()), category, tag)
    {
      var data := GetData();
      if data.Err? {
        return Fail(data.error);
      }
      var doc := data.value;
      if tag !in TagsIn(doc.tags, category) {
        doc := doc.(tags := AddTagTo(doc.tags, category, tag));
        o := SetData(doc);
      } else {
        o := Pass;
      }
    }

    method AddEmotionTag(tag: string) returns (o: Outcome<StorageError>)
      modifies this`slot
      ensures Saved(o, State()) == TagAdded(old(State()), Emotions, tag)
    {
      o := AddTag(tag, Emotions);
    }

    method AddLifeAreaTag(tag: string) returns (o: Outcome<StorageError>)
      modifies this`slot
      ensures Saved(o, State()) == TagAdded(old(State()), LifeAreas, tag)
    {
      o := AddTag(tag, LifeAreas);
    }

    method RemoveTag(tag: string, category: Category) returns (o: Outcome<StorageError>)
      modifies this`slot
      ensures Saved(o, State()) == Commit(old(State()), (d: Document) => d.(tags := RemoveTagFrom(d.tags, category, tag)))
    {
      var data := GetData();
      if data.Err? {
        return Fail(data.error);
      }
      var doc := data.value;
      doc := doc.(tags := RemoveTagFrom(doc.tags, category, tag));
      o := SetData(doc);
    }

    // -------------------------------------------------------------------------
    // Maintenance
    // -------------------------------------------------------------------------

    method GetSchemaVersion() returns (r: Result<int, StorageError>)
      modifies this`slot
      ensures r == Answer(old(State()), (d: Document) => d.schemaVersion)
      ensures State() == Load(old(State())).after
    {
      var data := GetData();
      if data.Err? {
        return Err(data.error);
      }
      return Ok(data.value.schemaVersion);
    }

    method ExportData() returns (r: Result<Text, StorageError>)
      modifies this`slot
      ensures r == Answer(old(State()), (d: Document) => Encoded(d))
      ensures State() == Load(old(State())).after
    {
      var data := GetData();
      if data.Err? {
        return Err(data.error);
      }
      return Ok(Encoded(data.value));
    }

    method ImportData(text: Text) returns (o: Outcome<StorageError>)
      modifies this`slot
      ensures Saved(o, State()) == Imported(old(State()), text)
    {
      match text
      case Malformed =>
        return Fail(ParseError);
      case Encoded(d) =>
        var w := SetData(d);
        if w.Fail? {
          return Fail(ParseError);
        }
        return Pass;
    }

    /** resetAllData: writes the default document without reading the stored one. */
    method ResetAllData() returns (o: Outcome<StorageError>)
      modifies this`slot
      ensures Saved(o, State()) == Save(old(State()), DefaultDocument)
    {
      o := SetData(DefaultDocument);
    }

    /** getStorageInfo; `measure` stands for the byte length of the document's JSON text. */
    method GetStorageInfo(measure: Document -> nat) returns (r: Result<StorageInfo, StorageError>)
      modifies this`slot
      ensures var probe := available;
              r == Answer(old(State()), (d: Document) => StorageInfo(probe, if probe then measure(d) else 0, |d.history|))
      ensures State() == Load(old(State())).after
    {
      var isAvailable := available;
      var data := GetData();
      if data.Err? {
        return Err(data.error);
      }
      var size := if isAvailable then measure(data.value) else 0;
      return Ok(StorageInfo(isAvailable, size, |data.value.history|));
    }
  }
}
