/**
 * The checkpoint store: one record per key inside a checkpoint directory.
 * The directory is modelled by the map from file name (the key) to the record
 * the file holds, so listing the directory is taking the map's key set.
 */
module Checkpoints {

  import opened Wrappers
  import opened Values

  datatype Checkpoint = Checkpoint(dir: string, entries: map<string, Record>)

  /** A checkpoint over directory `dir`, which already holds `files`. */
  function Open(dir: string, files: map<string, Record>): (cp: Checkpoint)
    ensures CheckpointDir(cp) == dir
    ensures Names(cp) == files.Keys
    ensures forall k :: k in files ==> Check(cp, k) == Some(files[k])
  {
    Checkpoint(dir, files)
  }

  /** The directory the checkpoint was constructed with; no operation changes it. */
  function CheckpointDir(cp: Checkpoint): string
  {
    cp.dir
  }

  /**
   * The keys with a stored record: the names of the files in the directory at
   * the time of the call, one per stored record, with no separate ledger.
   */
  function Names(cp: Checkpoint): set<string>
  {
    cp.entries.Keys
  }

  /**
   * The record stored under `key`, if any. A stored record is returned as it
   * is; no further validity condition is applied.
   */
  function Check(cp: Checkpoint, key: string): (r: Option<Record>)
    ensures r.Some? <==> key in Names(cp)
  {
    if key in cp.entries then Some(cp.entries[key]) else None
  }

  /** Stores `rec` under `key`, replacing whatever was there; nothing else changes. */
  function Save(cp: Checkpoint, key: string, rec: Record): (r: Checkpoint)
    ensures CheckpointDir(r) == CheckpointDir(cp)
    ensures Names(r) == Names(cp) + {key}
    ensures Check(r, key) == Some(rec)
    ensures forall k :: k != key ==> Check(r, k) == Check(cp, k)
  {
    cp.(entries := cp.entries[key := rec])
  }

  /** Removes `key`; a key that is not stored is not an error and changes nothing. */
  function Discard(cp: Checkpoint, key: string): (r: Checkpoint)
    ensures CheckpointDir(r) == CheckpointDir(cp)
    ensures Names(r) == Names(cp) - {key}
    ensures Check(r, key) == None
    ensures forall k :: k != key ==> Check(r, k) == Check(cp, k)
    ensures key !in Names(cp) ==> r == cp
  {
    cp.(entries := cp.entries - {key})
  }

  /** Removes every stored record; the directory stays the same and is left empty. */
  function Clear(cp: Checkpoint): (r: Checkpoint)
    ensures CheckpointDir(r) == CheckpointDir(cp)
    ensures Names(r) == {}
    ensures forall k :: Check(r, k) == None
  {
    cp.(entries := map[])
  }

  /** `a` is `b` with possibly more records: nothing of `b` is removed or rewritten. */
  ghost predicate Extends(b: Checkpoint, a: Checkpoint)
  {
    && a.dir == b.dir
    && forall k :: k in b.entries ==> k in a.entries && a.entries[k] == b.entries[k]
  }

  /** Saving overwrites: of two saves under one key, only the last one is visible. */
  lemma SaveLastWins(cp: Checkpoint, key: string, first: Record, last: Record)
    ensures Save(Save(cp, key, first), key, last) == Save(cp, key, last)
  {
  }

  /** Discarding twice is discarding once. */
  lemma DiscardIdempotent(cp: Checkpoint, key: string)
    ensures Discard(Discard(cp, key), key) == Discard(cp, key)
  {
  }

  /** Discarding a key just saved removes every trace of the save. */
  lemma DiscardUndoesSave(cp: Checkpoint, key: string, rec: Record)
    ensures Discard(Save(cp, key, rec), key) == Discard(cp, key)
  {
  }
}
