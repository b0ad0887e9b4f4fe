/**
 * The `levelProgress` storage key. Its value is the JSON text of an object
 * keyed by level id; reading it yields one of three outcomes.
 */
module Storage {

  /** What a completed level stores. */
  datatype ProgressRecord = ProgressRecord(completed: bool, stars: int, completedAt: string)

  /**
   * The key's content as read back: not set, parsed to a progress map, or text
   * that `JSON.parse` rejects (which throws).
   */
  datatype StoredProgress =
    | Absent
    | Parsed(progress: map<int, ProgressRecord>)
    | Unparsable

  /** `progress ? JSON.parse(progress) : {}` for a read that does not throw. */
  function SavedOrEmpty(stored: StoredProgress): (m: map<int, ProgressRecord>)
    requires !stored.Unparsable?
    ensures stored.Absent? ==> m == map[]
    ensures stored.Parsed? ==> m == stored.progress
  {
    if stored.Parsed? then stored.progress else map[]
  }

  /** The persistent store, shared by the screens that read and write it. */
  class ProgressStorage {
    var levelProgress: StoredProgress

    constructor (initial: StoredProgress)
      ensures levelProgress == initial
    {
      levelProgress := initial;
    }
  }
}
