/**
 * The in-memory part of every operation of lib/storage.ts: what each one reads out of, or
 * changes in, the document it has just loaded. The store in module Storage wraps each of
 * these between a read and a write of the whole document.
 */
module Documents {
  import opened Wrappers
  import opened Seqs
  import opened Schema

  // ---------------------------------------------------------------------------
  // Preferences
  // ---------------------------------------------------------------------------

  /** The keys of `UserPreferences`. */
  datatype PreferenceKey =
    NotificationTimeKey | NotificationsEnabledKey | ThemeKey | SansSerifBodyKey | ReduceMotionKey

  /** One key of `UserPreferences` together with a value of that key's type. */
  datatype PreferenceSetting =
    | NotificationTime(time: string)
    | NotificationsEnabled(enabled: bool)
    | ThemeIs(theme: Theme)
    | SansSerifBody(sans: bool)
    | ReduceMotion(reduce: bool)
  {
    function Key(): PreferenceKey {
      match this
      case NotificationTime(_) => NotificationTimeKey
      case NotificationsEnabled(_) => NotificationsEnabledKey
      case ThemeIs(_) => ThemeKey
      case SansSerifBody(_) => SansSerifBodyKey
      case ReduceMotion(_) => ReduceMotionKey
    }
  }

  /** `preferences[key]` (getPreference). */
  function PreferenceOf(p: Preferences, key: PreferenceKey): (s: PreferenceSetting)
    ensures s.Key() == key
  {
    match key
    case NotificationTimeKey => NotificationTime(p.notificationTime)
    case NotificationsEnabledKey => NotificationsEnabled(p.notificationsEnabled)
    case ThemeKey => ThemeIs(p.theme)
    case SansSerifBodyKey => SansSerifBody(p.sansSerifBody)
    case ReduceMotionKey => ReduceMotion(p.reduceMotion)
  }

  /** Two preference records that agree on every key are equal. */
  lemma PreferencesExtensional(p: Preferences, q: Preferences)
    requires forall k :: PreferenceOf(p, k) == PreferenceOf(q, k)
    ensures p == q
  {
    assert PreferenceOf(p, NotificationTimeKey) == PreferenceOf(q, NotificationTimeKey);
    assert PreferenceOf(p, NotificationsEnabledKey) == PreferenceOf(q, NotificationsEnabledKey);
    assert PreferenceOf(p, ThemeKey) == PreferenceOf(q, ThemeKey);
    assert PreferenceOf(p, SansSerifBodyKey) == PreferenceOf(q, SansSerifBodyKey);
    assert PreferenceOf(p, ReduceMotionKey) == PreferenceOf(q, ReduceMotionKey);
  }

  /** `preferences[key] = value` (setPreference): that key takes the value, every other key keeps its own. */
  function WithPreference(p: Preferences, s: PreferenceSetting): (r: Preferences)
    ensures PreferenceOf(r, s.Key()) == s
    ensures forall k :: k != s.Key() ==> PreferenceOf(r, k) == PreferenceOf(p, k)
  {
    match s
    case NotificationTime(t) => p.(notificationTime := t)
    case NotificationsEnabled(b) => p.(notificationsEnabled := b)
    case ThemeIs(t) => p.(theme := t)
    case SansSerifBody(b) => p.(sansSerifBody := b)
    case ReduceMotion(b) => p.(reduceMotion := b)
  }

  /** A `Partial<UserPreferences>` (setPreferences). */
  datatype PreferencesPatch = PreferencesPatch(
    notificationTime: Patch<string>,
    notificationsEnabled: Patch<bool>,
    theme: Patch<Theme>,
    sansSerifBody: Patch<bool>,
    reduceMotion: Patch<bool>)
  {
    /** The setting the patch supplies for `key`, if it supplies one. */
    function Supplied(key: PreferenceKey): Option<PreferenceSetting> {
      match key
      case NotificationTimeKey =>
        if notificationTime.Put? then Some(NotificationTime(notificationTime.value)) else None
      case NotificationsEnabledKey =>
        if notificationsEnabled.Put? then Some(NotificationsEnabled(notificationsEnabled.value)) else None
      case ThemeKey =>
        if theme.Put? then Some(ThemeIs(theme.value)) else None
      case SansSerifBodyKey =>
        if sansSerifBody.Put? then Some(SansSerifBody(sansSerifBody.value)) else None
      case ReduceMotionKey =>
        if reduceMotion.Put? then Some(ReduceMotion(reduceMotion.value)) else None
    }
  }

  /** The patch that supplies exactly one setting. */
  function PatchOf(s: PreferenceSetting): PreferencesPatch {
    var none := PreferencesPatch(Keep, Keep, Keep, Keep, Keep);
    match s
    case NotificationTime(t) => none.(notificationTime := Put(t))
    case NotificationsEnabled(b) => none.(notificationsEnabled := Put(b))
    case ThemeIs(t) => none.(theme := Put(t))
    case SansSerifBody(b) => none.(sansSerifBody := Put(b))
    case ReduceMotion(b) => none.(reduceMotion := Put(b))
  }

  /**
   * `{ ...preferences, ...patch }` (setPreferences): a key the patch supplies takes the supplied
   * value, every key it does not supply keeps its current value.
   */
  function MergePreferences(p: Preferences, patch: PreferencesPatch): (r: Preferences)
    ensures forall k :: patch.Supplied(k).Some? ==> PreferenceOf(r, k) == patch.Supplied(k).value
    ensures forall k :: patch.Supplied(k).None? ==> PreferenceOf(r, k) == PreferenceOf(p, k)
  {
    Preferences(
      Patched(p.notificationTime, patch.notificationTime),
      Patched(p.notificationsEnabled, patch.notificationsEnabled),
      Patched(p.theme, patch.theme),
      Patched(p.sansSerifBody, patch.sansSerifBody),
      Patched(p.reduceMotion, patch.reduceMotion))
  }

  /** Setting one key is the same as merging the one-key patch: setPreference agrees with setPreferences. */
  lemma SettingIsOneKeyPatch(p: Preferences, s: PreferenceSetting)
    ensures WithPreference(p, s) == MergePreferences(p, PatchOf(s))
  {
    var a, b := WithPreference(p, s), MergePreferences(p, PatchOf(s));
    forall k ensures PreferenceOf(a, k) == PreferenceOf(b, k) {
      assert PatchOf(s).Supplied(k) == if k == s.Key() then Some(s) else None;
    }
    PreferencesExtensional(a, b);
  }

  // ---------------------------------------------------------------------------
  // Readings
  // ---------------------------------------------------------------------------

  /** The fields of a reading other than `id` and `timestamp`. */
  function DraftOf(r: Reading): ReadingDraft {
    ReadingDraft(r.spreadType, r.cards, r.question, r.aiInterpretation, r.userNotes, r.tags, r.shared, r.shareLink)
  }

  /** `{ ...draft, id, timestamp }` (addReading): the draft, completed by an id and a timestamp. */
  function Stamped(draft: ReadingDraft, id: string, timestamp: int): (r: Reading)
    ensures r.id == id && r.timestamp == timestamp
    ensures DraftOf(r) == draft
  {
    Reading(id, timestamp, draft.spreadType, draft.cards, draft.question, draft.aiInterpretation,
            draft.userNotes, draft.tags, draft.shared, draft.shareLink)
  }

  /** `{ ...draft, ...patch }` on the fields a patch may carry. */
  function MergeDraft(d: ReadingDraft, patch: ReadingPatch): ReadingDraft {
    ReadingDraft(
      Patched(d.spreadType, patch.spreadType),
      Patched(d.cards, patch.cards),
      Patched(d.question, patch.question),
      Patched(d.aiInterpretation, patch.aiInterpretation),
      Patched(d.userNotes, patch.userNotes),
      Patched(d.tags, patch.tags),
      Patched(d.shared, patch.shared),
      Patched(d.shareLink, patch.shareLink))
  }

  const NoChanges: ReadingPatch := ReadingPatch(Keep, Keep, Keep, Keep, Keep, Keep, Keep, Keep)

  /**
   * `{ ...reading, ...updates }` (updateReading): the patch cannot reach `id` or `timestamp`,
   * a field the patch does not carry keeps its value, and an empty patch changes nothing.
   */
  function PatchedReading(r: Reading, patch: ReadingPatch): (u: Reading)
    ensures u.id == r.id && u.timestamp == r.timestamp
    ensures DraftOf(u) == MergeDraft(DraftOf(r), patch)
    ensures patch == NoChanges ==> u == r
    ensures patch == NoChanges.(userNotes := patch.userNotes) ==> u == r.(userNotes := Patched(r.userNotes, patch.userNotes))
  {
    Stamped(MergeDraft(DraftOf(r), patch), r.id, r.timestamp)
  }

  /** Some reading of `h` carries `id`. */
  predicate HasId(h: seq<Reading>, id: string) {
    exists k :: 0 <= k < |h| && h[k].id == id
  }

  /** No two readings of `h` share an id. */
  predicate UniqueIds(h: seq<Reading>) {
    forall i, j :: 0 <= i < j < |h| ==> h[i].id != h[j].id
  }

  /** `history.findIndex(r => r.id === id)`: the first position carrying `id`, or -1. */
  function FindIndex(h: seq<Reading>, id: string): (i: int)
    ensures -1 <= i < |h|
    ensures 0 <= i ==> h[i].id == id && forall k :: 0 <= k < i ==> h[k].id != id
    ensures i == -1 <==> !HasId(h, id)
  {
    if h == [] then -1
    else if h[0].id == id then 0
    else
      var j := FindIndex(h[1..], id);
      if j == -1 then -1 else j + 1
  }

  /** `history.find(r => r.id === id)` (getReading). */
  function FindReading(h: seq<Reading>, id: string): (r: Option<Reading>)
    ensures r.None? <==> !HasId(h, id)
    ensures r.Some? ==> r.value.id == id && r.value in h
    ensures r.Some? ==> 0 <= FindIndex(h, id) && r.value == h[FindIndex(h, id)]
    ensures UniqueIds(h) ==> forall k :: 0 <= k < |h| && h[k].id == id ==> r == Some(h[k])
  {
    var i := FindIndex(h, id);
    if i < 0 then None else Some(h[i])
  }

  /** `history.filter(r => r.id !== id)` (deleteReading). */
  function WithoutId(h: seq<Reading>, id: string): (r: seq<Reading>)
    ensures !HasId(r, id)
    ensures forall x: Reading :: x.id != id ==> multiset(r)[x] == multiset(h)[x]
    ensures IsSubsequence(r, h)
    ensures |r| < |h| <==> HasId(h, id)
  {
    var keep := (x: Reading) => x.id != id;
    FilterShrinks(h, keep);
    assert HasId(h, id) <==> exists k :: 0 <= k < |h| && !keep(h[k]);
    var r := Filter(h, keep);
    assert forall k :: 0 <= k < |r| ==> r[k] in r && keep(r[k]);
    r
  }

  /** A reading of `h` is one a tag of the query is attached to. */
  predicate SharesTag(r: Reading, query: seq<string>) {
    exists t :: t in query && t in r.tags
  }

  /**
   * `history.filter(r => tags.some(t => r.tags.includes(t)))` (getReadingsByTags): exactly the
   * readings sharing at least one tag with the query, in history order.
   */
  function ReadingsByTags(h: seq<Reading>, query: seq<string>): (r: seq<Reading>)
    ensures forall x :: x in r <==> x in h && SharesTag(x, query)
    ensures forall x :: multiset(r)[x] == if SharesTag(x, query) then multiset(h)[x] else 0
    ensures IsSubsequence(r, h)
  {
    Filter(h, (x: Reading) => SharesTag(x, query))
  }

  /** A reading whose timestamp lies between the two bounds, both included. */
  predicate InRange(r: Reading, start: int, end: int) {
    start <= r.timestamp <= end
  }

  /** `history.filter(r => r.timestamp >= start && r.timestamp <= end)` (getReadingsByDateRange). */
  function ReadingsInRange(h: seq<Reading>, start: int, end: int): (r: seq<Reading>)
    ensures forall x :: x in r <==> x in h && InRange(x, start, end)
    ensures forall x :: multiset(r)[x] == if InRange(x, start, end) then multiset(h)[x] else 0
    ensures IsSubsequence(r, h)
  {
    Filter(h, (x: Reading) => InRange(x, start, end))
  }

  /** needsNewDailyDraw on the stored draw and the caller's date of today. */
  function NeedsNewDraw(draw: Option<DailyDraw>, today: string): (needed: bool)
    ensures draw.None? ==> needed
    ensures draw.Some? ==> (needed <==> draw.value.lastDrawDate != today)
  {
    draw.None? || draw.value.lastDrawDate != today
  }

  // ---------------------------------------------------------------------------
  // Tag vocabulary
  // ---------------------------------------------------------------------------

  function Other(c: Category): Category {
    match c
    case Emotions => LifeAreas
    case LifeAreas => Emotions
  }

  /** `available_tags[category]`. */
  function TagsIn(t: Tags, c: Category): seq<string> {
    match c
    case Emotions => t.emotions
    case LifeAreas => t.lifeAreas
  }

  /** `available_tags[category] = list`: the other category is untouched. */
  function WithTagList(t: Tags, c: Category, list: seq<string>): (r: Tags)
    ensures TagsIn(r, c) == list
    ensures TagsIn(r, Other(c)) == TagsIn(t, Other(c))
  {
    match c
    case Emotions => t.(emotions := list)
    case LifeAreas => t.(lifeAreas := list)
  }

  predicate NoDuplicates(s: seq<string>) {
    forall i, j :: 0 <= i < j < |s| ==> s[i] != s[j]
  }

  /**
   * `if (!list.includes(tag)) list.push(tag)` (addTag, addEmotionTag, addLifeAreaTag): afterwards
   * the tag is present, nothing else was added, the old entries keep their places, a list without
   * duplicates stays without, an existing tag changes nothing, and the other category is untouched.
   */
  function AddTagTo(t: Tags, c: Category, tag: string): (r: Tags)
    ensures tag in TagsIn(r, c)
    ensures forall x :: x in TagsIn(r, c) <==> x == tag || x in TagsIn(t, c)
    ensures TagsIn(t, c) <= TagsIn(r, c)
    ensures NoDuplicates(TagsIn(t, c)) ==> NoDuplicates(TagsIn(r, c))
    ensures tag in TagsIn(t, c) ==> r == t
    ensures TagsIn(r, Other(c)) == TagsIn(t, Other(c))
  {
    if tag in TagsIn(t, c) then t else WithTagList(t, c, TagsIn(t, c) + [tag])
  }

  /**
   * `list.filter(t => t !== tag)` (removeTag): every occurrence of the tag is gone, every other
   * entry keeps its multiplicity and order, and the other category is untouched.
   */
  function RemoveTagFrom(t: Tags, c: Category, tag: string): (r: Tags)
    ensures tag !in TagsIn(r, c)
    ensures forall x :: x != tag ==> multiset(TagsIn(r, c))[x] == multiset(TagsIn(t, c))[x]
    ensures IsSubsequence(TagsIn(r, c), TagsIn(t, c))
    ensures TagsIn(r, Other(c)) == TagsIn(t, Other(c))
  {
    WithTagList(t, c, Filter(TagsIn(t, c), (x: string) => x != tag))
  }

  /** Removing a tag twice is removing it once. */
  lemma {:induction false} RemoveTagIdempotent(t: Tags, c: Category, tag: string)
    ensures RemoveTagFrom(RemoveTagFrom(t, c, tag), c, tag) == RemoveTagFrom(t, c, tag)
  {
    var once := RemoveTagFrom(t, c, tag);
    FilterAll(TagsIn(once, c), (x: string) => x != tag);
    assert TagsIn(RemoveTagFrom(once, c, tag), c) == TagsIn(once, c);
    match c
    case Emotions =>
    case LifeAreas =>
  }

  // ---------------------------------------------------------------------------
  // Defaults
  // ---------------------------------------------------------------------------

  /**
   * The document a first run reads: version 1, no daily draw, no readings, the default
   * preferences (08:00, notifications on, night theme, serif body, motion not reduced) and a tag
   * vocabulary of five emotions and six life areas with no tag listed twice.
   */
  lemma DefaultDocumentContents()
    ensures DefaultDocument.schemaVersion == CurrentSchemaVersion == 1
    ensures DefaultDocument.dailyDraw.None? && DefaultDocument.history == []
    ensures UniqueIds(DefaultDocument.history)
    ensures DefaultDocument.preferences == DefaultPreferences
    ensures PreferenceOf(DefaultPreferences, NotificationTimeKey) == NotificationTime("08:00")
    ensures PreferenceOf(DefaultPreferences, NotificationsEnabledKey) == NotificationsEnabled(true)
    ensures PreferenceOf(DefaultPreferences, ThemeKey) == ThemeIs(Night)
    ensures PreferenceOf(DefaultPreferences, SansSerifBodyKey) == SansSerifBody(false)
    ensures PreferenceOf(DefaultPreferences, ReduceMotionKey) == ReduceMotion(false)
    ensures DefaultDocument.tags == DefaultTags
    ensures |DefaultTags.emotions| == 5 && |DefaultTags.lifeAreas| == 6
    ensures NoDuplicates(DefaultTags.emotions) && NoDuplicates(DefaultTags.lifeAreas)
  {
  }
}
