/**
 * The persisted document of the Vesper record store (lib/storage.ts): its entities,
 * the default values a first read produces, and the errors the store raises.
 */
module Schema {
  import opened Wrappers

  datatype Theme = Night | Dawn

  datatype Preferences = Preferences(
    notificationTime: string,  // "HH:MM"
    notificationsEnabled: bool,
    theme: Theme,
    sansSerifBody: bool,
    reduceMotion: bool)

  datatype Card = Card(id: string, name: string, upright: bool, position: Option<string>)

  datatype DailyDraw = DailyDraw(lastDrawDate: string, card: Card, question: Option<string>)

  datatype Reading = Reading(
    id: string,
    timestamp: int,  // milliseconds since the epoch
    spreadType: string,
    cards: seq<Card>,
    question: Option<string>,
    aiInterpretation: Option<string>,
    userNotes: Option<string>,
    tags: seq<string>,
    shared: bool,
    shareLink: Option<string>)

  /** What `addReading` is given: a reading without its `id` and `timestamp`. */
  datatype ReadingDraft = ReadingDraft(
    spreadType: string,
    cards: seq<Card>,
    question: Option<string>,
    aiInterpretation: Option<string>,
    userNotes: Option<string>,
    tags: seq<string>,
    shared: bool,
    shareLink: Option<string>)

  /** What `updateReading` is given: any subset of the fields other than `id` and `timestamp`. */
  datatype ReadingPatch = ReadingPatch(
    spreadType: Patch<string>,
    cards: Patch<seq<Card>>,
    question: Patch<Option<string>>,
    aiInterpretation: Patch<Option<string>>,
    userNotes: Patch<Option<string>>,
    tags: Patch<seq<string>>,
    shared: Patch<bool>,
    shareLink: Patch<Option<string>>)

  datatype Tags = Tags(emotions: seq<string>, lifeAreas: seq<string>)

  datatype Category = Emotions | LifeAreas

  /** The one persisted record, stored under the key `vesper_data`. */
  datatype Document = Document(
    preferences: Preferences,
    dailyDraw: Option<DailyDraw>,
    history: seq<Reading>,  // most recent first
    tags: Tags,
    schemaVersion: int)

  /** The three ways an operation of the store can throw. */
  datatype StorageError =
    | ParseError       // StorageParseError
    | QuotaExceeded    // StorageQuotaExceededError
    | SubstrateFailure // any other error from the substrate's write, rethrown as it is

  const CurrentSchemaVersion: int := 1

  const DefaultPreferences: Preferences := Preferences("08:00", true, Night, false, false)

  const DefaultTags: Tags := Tags(
    ["anxious", "hopeful", "confused", "excited", "stuck"],
    ["love", "career", "self", "family", "friendship", "spirituality"])

  const DefaultDocument: Document :=
    Document(DefaultPreferences, None, [], DefaultTags, CurrentSchemaVersion)
}
