/** The aspect's mutable state: one record per (contract, NFT index). */
module LossState {
  import opened U64
  import opened Bytes

  /** A contract address (its hex spelling in the storage keys is not modelled). */
  type Address = seq<Byte>

  /** Identifies one tracked NFT: the contract it lives in and its token index. */
  datatype AssetKey = AssetKey(contract: Address, index: seq<Byte>)

  /** The three state slots the aspect keeps for an asset:
      `#transferTimes`, `#currentLoss` and `#destroy`. */
  datatype Record = Record(transferTimes: u64, currentLoss: u64, destroyed: bool)

  type Store = map<AssetKey, Record>

  /** What an asset's slots read as before anything was written: unset u64 slots unwrap to 0
      and an unset boolean slot to false. */
  const Unset: Record := Record(0, 0, false)

  function Get(store: Store, key: AssetKey): Record {
    if key in store then store[key] else Unset
  }

  /** isDestroyEquipment: reads the destroy flag of an asset. */
  function IsDestroyEquipment(store: Store, key: AssetKey): (b: bool)
    ensures b <==> key in store && store[key].destroyed
  {
    Get(store, key).destroyed
  }

  /** destroyEquipment: sets the destroy flag of one asset and touches nothing else. */
  function DestroyEquipment(store: Store, key: AssetKey): (r: Store)
    ensures IsDestroyEquipment(r, key)
    ensures Get(r, key).transferTimes == Get(store, key).transferTimes
    ensures Get(r, key).currentLoss == Get(store, key).currentLoss
    ensures forall k :: k != key ==> Get(r, k) == Get(store, k)
  {
    store[key := Get(store, key).(destroyed := true)]
  }

  /** Writes the `#transferTimes` and `#currentLoss` slots of one asset. */
  function Commit(store: Store, key: AssetKey, transferTimes: u64, currentLoss: u64): (r: Store)
    ensures Get(r, key) == Record(transferTimes, currentLoss, Get(store, key).destroyed)
    ensures forall k :: k != key ==> Get(r, k) == Get(store, k)
  {
    store[key := Record(transferTimes, currentLoss, Get(store, key).destroyed)]
  }

  /** Destroying is idempotent: a second destroy of the same asset changes nothing. */
  lemma DestroyEquipmentIdempotent(store: Store, key: AssetKey)
    ensures DestroyEquipment(DestroyEquipment(store, key), key) == DestroyEquipment(store, key)
  {
  }

  /** Writing an asset's record twice leaves only the second write. */
  lemma OverwriteRecord(store: Store, key: AssetKey, first: Record, second: Record)
    ensures store[key := first][key := second] == store[key := second]
  {
  }
}
