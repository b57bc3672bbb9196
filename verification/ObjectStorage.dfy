/** Names of backup objects. */
module ObjectStorage {
  import Decimal

  type Key = string

  function OwnerPrefix(clone: nat): (prefix: string) {
    "clone-" + (Decimal.Show(clone) + ['/'])
  }

  /** backup_key. `stamp` is the text of the two period times, `suffix` the eight hex digits. */
  function BackupKey(clone: nat, stamp: string, suffix: string): (key: Key) {
    OwnerPrefix(clone) + (stamp + "-" + suffix + ".mp.gz")
  }

  predicate OwnedBy(key: Key, clone: nat) {
    OwnerPrefix(clone) <= key
  }

  lemma BackupKeyOwned(clone: nat, stamp: string, suffix: string)
    ensures OwnedBy(BackupKey(clone, stamp, suffix), clone)
  {
  }

  /** A name in full. */
  lemma NameSpelt(stamp: string, suffix: string)
    ensures BackupKey(1024, stamp, suffix) == "clone-1024/" + stamp + "-" + suffix + ".mp.gz"
  {
    Decimal.ShowSpelt();
  }

  /** A name has one owner, whatever the ids: no clone's object can be taken for another's. */
  lemma OneOwner(key: Key, a: nat, b: nat)
    requires OwnedBy(key, a) && OwnedBy(key, b)
    ensures a == b
  {
    var restA, restB := key[|OwnerPrefix(a)|..], key[|OwnerPrefix(b)|..];
    var tail := key[6..];
    assert key == OwnerPrefix(a) + restA == OwnerPrefix(b) + restB;
    assert tail == Decimal.Show(a) + ['/'] + restA;
    assert tail == Decimal.Show(b) + ['/'] + restB;
    Decimal.ShowDelimited(a, b, '/', restA, restB);
  }
}
