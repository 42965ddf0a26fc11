/**
 * lib/storage.ts as written, with its two shared default objects, on a substrate whose writes
 * succeed whenever the probe does.
 *
 * getData hands out the module's one DEFAULT_STORAGE object whenever the probe fails or nothing
 * is stored, and the operations change the object they were handed before writing it. So a
 * change made then lands in DEFAULT_STORAGE itself. DEFAULT_STORAGE's preferences are the object
 * DEFAULT_PREFERENCES until an operation assigns that field, and resetPreferences assigns
 * DEFAULT_PREFERENCES to the document it was handed.
 *
 * A document parsed from the slot is a fresh object, so changes to it reach neither default.
 * The rest of the model (module Storage) treats the defaults as values; this module states where
 * the code differs.
 */
module SharedDefaults {
  import opened Wrappers
  import opened Schema
  import opened Documents
  import opened Storage

  /**
   * The slot, the probe, the current contents of DEFAULT_STORAGE (`shared`) and of
   * DEFAULT_PREFERENCES (`sharedPrefs`), and whether DEFAULT_STORAGE's preferences field is still
   * the DEFAULT_PREFERENCES object (`linked`).
   */
  datatype Heap = Heap(slot: Slot, available: bool, shared: Document, sharedPrefs: Preferences, linked: bool)

  /** Two references to one object see the same contents. */
  predicate Valid(m: Heap) {
    m.linked ==> m.shared.preferences == m.sharedPrefs
  }

  /** The module as loaded: both defaults as declared, and linked. */
  function Initial(slot: Slot, available: bool): (m: Heap)
    ensures Valid(m) && m.linked
    ensures m.shared == DefaultDocument && m.sharedPrefs == DefaultPreferences
  {
    Heap(slot, available, DefaultDocument, DefaultPreferences, true)
  }

  /** getData returns DEFAULT_STORAGE itself. */
  predicate HandsOutShared(m: Heap) {
    !m.available || m.slot.Absent?
  }

  /** getData as written: DEFAULT_STORAGE, the stored document (migrated) or ParseError. */
  function Read(m: Heap): (r: Result<Document, StorageError>)
    ensures HandsOutShared(m) ==> r == Ok(m.shared)
    ensures !HandsOutShared(m) ==> r == Load(Substrate(m.slot, m.available, NoFault)).doc
  {
    if HandsOutShared(m) then Ok(m.shared)
    else
      match m.slot
      case Corrupt => Err(ParseError)
      case Doc(d) => Ok(Migrated(d))
      case Absent => Ok(m.shared)
  }

  /** setData as written, with a write that succeeds whenever the probe does. */
  function Write(m: Heap, d: Document): (m': Heap)
    ensures m'.slot == if m.available then Doc(d) else m.slot
    ensures m' == m.(slot := m'.slot)
  {
    if m.available then m.(slot := Doc(d)) else m
  }

  /** addReading as written: `unshift` on the history of the document getData handed out. */
  function AddReading(m: Heap, r: Reading): (m': Heap)
    ensures HandsOutShared(m) ==> m'.shared == m.shared.(history := [r] + m.shared.history)
    ensures !HandsOutShared(m) ==> m'.shared == m.shared
    ensures m'.sharedPrefs == m.sharedPrefs && m'.linked == m.linked
    ensures Valid(m) ==> Valid(m')
  {
    match Read(m)
    case Err(_) => m
    case Ok(d) =>
      var d' := d.(history := [r] + d.history);
      if HandsOutShared(m) then Write(m.(shared := d'), d') else Write(m, d')
  }

  /**
   * setPreference as written: an assignment inside the preferences object of the document getData
   * handed out. On DEFAULT_STORAGE, while it is linked, that object is DEFAULT_PREFERENCES.
   */
  function SetPreference(m: Heap, setting: PreferenceSetting): (m': Heap)
    ensures HandsOutShared(m) ==> m'.shared.preferences == WithPreference(m.shared.preferences, setting)
    ensures Valid(m) && HandsOutShared(m) && m.linked ==> m'.sharedPrefs == WithPreference(m.sharedPrefs, setting)
    ensures !(HandsOutShared(m) && m.linked) ==> m'.sharedPrefs == m.sharedPrefs
    ensures m'.linked == m.linked
    ensures Valid(m) ==> Valid(m')
  {
    match Read(m)
    case Err(_) => m
    case Ok(d) =>
      var d' := d.(preferences := WithPreference(d.preferences, setting));
      if HandsOutShared(m) then
        var prefs := if m.linked then d'.preferences else m.sharedPrefs;
        Write(m.(shared := d', sharedPrefs := prefs), d')
      else Write(m, d')
  }

  /** resetPreferences as written: the document's preferences field is set to DEFAULT_PREFERENCES itself. */
  function ResetPreferences(m: Heap): (m': Heap)
    ensures m.available && Read(m).Ok? ==> Read(m').Ok? && Read(m').value.preferences == m.sharedPrefs
    ensures m'.sharedPrefs == m.sharedPrefs
    ensures HandsOutShared(m) ==> m'.linked
    ensures Valid(m) ==> Valid(m')
  {
    match Read(m)
    case Err(_) => m
    case Ok(d) =>
      var d' := d.(preferences := m.sharedPrefs);
      if HandsOutShared(m) then Write(m.(shared := d', linked := true), d') else Write(m, d')
  }

  /** resetAllData as written: `setData(DEFAULT_STORAGE)`, in whatever state that object is. */
  function ResetAll(m: Heap): (m': Heap)
    ensures m.available ==> m'.slot == Doc(m.shared)
    ensures m'.shared == m.shared
  {
    Write(m, m.shared)
  }

  /**
   * As written, the first reading ever added survives a reset: on an empty, healthy store,
   * addReading(r) and then resetAllData() store a history of [r], not the empty default history.
   */
  lemma ResetAfterFirstReadingAsWritten(r: Reading)
    ensures var m := ResetAll(AddReading(Initial(Absent, true), r));
            m.slot == Doc(DefaultDocument.(history := [r])) && m.slot != Doc(DefaultDocument)
  {
    var m1 := AddReading(Initial(Absent, true), r);
    assert m1.shared == DefaultDocument.(history := [r]);
  }

  /**
   * As written, a store whose probe fails remembers what was added in the running page: after
   * addReading(r), the next read returns a history of [r] instead of the default empty history.
   */
  lemma UnavailableAddReadingAsWritten(slot: Slot, r: Reading)
    ensures Read(AddReading(Initial(slot, false), r)) == Ok(DefaultDocument.(history := [r]))
    ensures Read(AddReading(Initial(slot, false), r)) != Ok(DefaultDocument)
  {
    var m1 := AddReading(Initial(slot, false), r);
    assert m1.shared == DefaultDocument.(history := [r]);
    assert m1.shared.history != DefaultDocument.history;
  }

  /**
   * As written, resetPreferences does not undo a first-run setPreference: on an empty, healthy
   * store, setPreference(theme, dawn) changes DEFAULT_PREFERENCES itself, and the reset then
   * writes that changed object, so the theme read back is still dawn.
   */
  lemma ResetPreferencesAsWritten()
    ensures var m := ResetPreferences(SetPreference(Initial(Absent, true), ThemeIs(Dawn)));
            && Read(m).Ok?
            && Read(m).value.preferences == DefaultPreferences.(theme := Dawn)
            && Read(m).value.preferences != DefaultPreferences
  {
    var m1 := SetPreference(Initial(Absent, true), ThemeIs(Dawn));
    assert m1.sharedPrefs == DefaultPreferences.(theme := Dawn);
    assert m1.slot.Doc? && m1.slot.doc.schemaVersion == CurrentSchemaVersion;
  }
}
