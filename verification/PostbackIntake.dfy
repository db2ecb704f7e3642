/** The postback archive: one row per (provider, transaction id), and its processing states. */
module PostbackIntakes {
  import opened Wrappers

  datatype PostbackState = Received | Processed | Quarantined | Unparseable | Failed

  /** `key` is absent only for a payload that verified and would not parse. */
  datatype Postback = Postback(
    provider: nat,
    key: Option<nat>,
    state: PostbackState,
    duplicates: nat,
    attempts: nat)

  datatype Acknowledgement = Accepted(postback: nat) | Duplicate

  /** The row holding an idempotency key, if the unique index has one. */
  function Find(archive: seq<Postback>, provider: nat, key: nat): (found: Option<nat>)
    ensures found.Some? ==> found.value < |archive| && archive[found.value].provider == provider
                            && archive[found.value].key == Some(key)
    ensures found.None? ==> forall i | 0 <= i < |archive| :: !(archive[i].provider == provider && archive[i].key == Some(key))
  {
    if archive == [] then None
    else
      var n := |archive| - 1;
      var earlier := Find(archive[..n], provider, key);
      if earlier.Some? then earlier
      else if archive[n].provider == provider && archive[n].key == Some(key) then Some(n)
      else None
  }

  ghost predicate KeysUnique(archive: seq<Postback>) {
    forall i, j | 0 <= i < j < |archive| && archive[i].key.Some? && archive[i].provider == archive[j].provider ::
      archive[i].key != archive[j].key
  }

  function Fresh(provider: nat, key: nat): Postback {
    Postback(provider, Some(key), Received, 0, 0)
  }

  /** The state a processing outcome writes; each one counts an attempt. */
  function Marked(p: Postback, state: PostbackState): Postback {
    p.(state := state, attempts := p.attempts + 1)
  }

  class PostbackIntake {
    var archive: seq<Postback>

    constructor ()
      ensures archive == []
    {
      archive := [];
    }

    /** The insert, refused by the unique index when the key is already archived. */
    method Insert(p: Postback) returns (answer: Result<nat>)
      modifies this
      ensures if p.key.Some? && Find(old(archive), p.provider, p.key.value).Some? then
                answer == Err(UniqueViolation) && archive == old(archive)
              else answer == Ok(|old(archive)|) && archive == old(archive) + [p]
      ensures old(KeysUnique(archive)) ==> KeysUnique(archive)
    {
      if p.key.Some? && Find(archive, p.provider, p.key.value).Some? {
        return Err(UniqueViolation);
      }
      archive := archive + [p];
      return Ok(|archive| - 1);
    }

    method MarkDuplicate(provider: nat, key: nat)
      requires Find(archive, provider, key).Some?
      modifies this
      ensures var i := Find(old(archive), provider, key).value;
              archive == old(archive)[i := old(archive)[i].(duplicates := old(archive)[i].duplicates + 1)]
    {
      var i := Find(archive, provider, key).value;
      archive := archive[i := archive[i].(duplicates := archive[i].duplicates + 1)];
    }

    /** Insert first, look afterwards: a duplicate is counted on the row it duplicates. */
    method Archive(provider: nat, key: nat) returns (answer: Acknowledgement)
      requires KeysUnique(archive)
      modifies this
      ensures KeysUnique(archive)
      ensures match Find(old(archive), provider, key)
              case None => answer == Accepted(|old(archive)|) && archive == old(archive) + [Fresh(provider, key)]
              case Some(i) =>
                answer == Duplicate
                && archive == old(archive)[i := old(archive)[i].(duplicates := old(archive)[i].duplicates + 1)]
    {
      var stored := Insert(Fresh(provider, key));
      if stored.Err? {
        MarkDuplicate(provider, key);
        return Duplicate;
      }
      return Accepted(stored.value);
    }

    /** An unparseable payload is kept as evidence, with no key to collide on. */
    method ArchiveUnparseable(provider: nat) returns (id: nat)
      requires KeysUnique(archive)
      modifies this
      ensures KeysUnique(archive) && id == |old(archive)|
      ensures archive == old(archive) + [Postback(provider, None, Unparseable, 0, 0)]
    {
      var stored := Insert(Postback(provider, None, Unparseable, 0, 0));
      id := stored.value;
    }

    method Mark(id: nat, state: PostbackState)
      requires id < |archive|
      modifies this
      ensures archive == old(archive)[id := Marked(old(archive)[id], state)]
      ensures old(KeysUnique(archive)) ==> KeysUnique(archive)
    {
      archive := archive[id := archive[id].(state := state, attempts := archive[id].attempts + 1)];
    }
  }
}
