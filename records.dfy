/** The cached record of the "sets" collection and the payload `updateSet`
    sends, `{ ...set, expense: total }`. */
module Records {
  import opened Wrappers

  /** One record of the "sets" collection: its id, its name and its
      persisted total. */
  datatype SetRecord = SetRecord(id: string, name: string, expense: int)

  /** The update payload. Spreading an undefined cached set contributes no
      fields, so only `expense` is certain to be present. */
  datatype SetData = SetData(id: Option<string>, name: Option<string>, expense: int)

  /** A whole record viewed as a payload with every field present. */
  function AsData(s: SetRecord): SetData {
    SetData(Some(s.id), Some(s.name), s.expense)
  }

  /** The payload of `updateSet(total)`: the cached record's fields with
      `expense` overwritten by the new total. */
  function Merge(cached: Option<SetRecord>, total: int): (data: SetData)
    ensures data.expense == total
    ensures cached.Some? ==> data.id == Some(cached.value.id) && data.name == Some(cached.value.name)
    ensures cached.None? ==> data.id.None? && data.name.None?
  {
    match cached
    case Some(s) => SetData(Some(s.id), Some(s.name), total)
    case None => SetData(None, None, total)
  }

  /** Overlaying the total on a cached record gives that record with only its
      total replaced. */
  lemma MergeIsRecordUpdate(s: SetRecord, total: int)
    ensures Merge(Some(s), total) == AsData(s.(expense := total))
  {
  }

  /** The total previously stored in the cache plays no part in the payload:
      the newest total wins. */
  lemma MergeOverwrites(s: SetRecord, old_total: int, total: int)
    ensures Merge(Some(s.(expense := old_total)), total) == Merge(Some(s), total)
  {
  }

  /** Merging the total a record already holds leaves it as it is. */
  lemma MergeSameTotal(s: SetRecord)
    ensures Merge(Some(s), s.expense) == AsData(s)
  {
  }
}
