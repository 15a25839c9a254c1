/** The user-data blob store as the daughterboard manager sees it: a map from
    blob id to blob bytes, read as a whole and updated by overlaying a map of
    new blobs. The on-EEPROM encoding of that map is not part of this model. */
module UserData {

  type Blob = seq<bv8>
  type BlobMap = map<string, Blob>

  /** The store after setting every blob of `updates`, one id at a time. */
  function Overlay(store: BlobMap, updates: BlobMap): (r: BlobMap)
    ensures r.Keys == store.Keys + updates.Keys
    ensures forall id :: id in updates ==> r[id] == updates[id]
    ensures forall id :: id in store && id !in updates ==> r[id] == store[id]
  {
    store + updates
  }

  /** Setting the same blobs twice leaves the store as setting them once. */
  lemma OverlayIdempotent(store: BlobMap, updates: BlobMap)
    ensures Overlay(Overlay(store, updates), updates) == Overlay(store, updates)
  {
  }

  /** Two successive updates amount to one update with their merge, the later winning. */
  lemma OverlaySequential(store: BlobMap, first: BlobMap, second: BlobMap)
    ensures Overlay(Overlay(store, first), second) == Overlay(store, Overlay(first, second))
  {
  }

  /** Reading back any id just set yields the bytes that were set, whatever else the store held. */
  lemma OverlayRoundTrip(store: BlobMap, updates: BlobMap, id: string)
    requires id in updates
    ensures id in Overlay(store, updates) && Overlay(store, updates)[id] == updates[id]
  {
  }
}
