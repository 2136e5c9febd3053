/** JSON merge patches (RFC 7396, section 2) on one flat object.  A member of the patch either
    carries a value or is null (`None`), which asks for removal; a name the patch does not mention
    is left alone. */
module MergePatch {
  import opened Wrappers

  type Patch<K, V> = map<K, Option<V>>

  /** What `client.MergeFrom(base)` computes for the modified object. */
  function Diff<K, V(==)>(base: map<K, V>, modified: map<K, V>): Patch<K, V> {
    map k | k in base.Keys + modified.Keys && !(k in base && k in modified && base[k] == modified[k])
      :: if k in modified then Some(modified[k]) else None
  }

  /** The patch that carries a whole object, as a client that marshals the object itself sends it. */
  function Whole<K, V>(whole: map<K, V>): Patch<K, V> {
    map k | k in whole :: Some(whole[k])
  }

  /** What the server does with a patch. */
  function Apply<K, V>(target: map<K, V>, patch: Patch<K, V>): map<K, V> {
    map k | k in target.Keys + patch.Keys && !(k in patch && patch[k].None?)
      :: if k in patch then patch[k].value else target[k]
  }

  ghost predicate AgreeAt<K, V>(a: map<K, V>, b: map<K, V>, k: K) {
    (k in a <==> k in b) && (k in a ==> a[k] == b[k])
  }

  /** Every name is taken from the modified object if the client changed it and from the server
      otherwise: a difference patch is a three-way merge in which the client wins. */
  lemma DiffIsThreeWayMerge<K, V>(server: map<K, V>, base: map<K, V>, modified: map<K, V>, k: K)
    ensures var result := Apply(server, Diff(base, modified));
            if AgreeAt(base, modified, k) then AgreeAt(result, server, k) else AgreeAt(result, modified, k)
  {
  }

  /** Taken against the server's own object, the patch installs exactly the modified object. */
  lemma ApplyDiff<K, V>(base: map<K, V>, modified: map<K, V>)
    ensures Apply(base, Diff(base, modified)) == modified
  {
  }

  /** Marshalling the object itself cannot remove anything: what it no longer holds stays. */
  lemma WholeNeverDeletes<K, V>(target: map<K, V>, whole: map<K, V>)
    ensures Apply(target, Whole(whole)) == target + whole
  {
  }

  /** An update made on a copy that has drifted from the server reaches the server as that update,
      as long as the two agree on the updated name or the copy lacks it. */
  lemma UpdateReachesServer<K, V>(server: map<K, V>, base: map<K, V>, key: K, value: V)
    requires AgreeAt(base, server, key) || key !in base
    ensures Apply(server, Diff(base, base[key := value])) == server[key := value]
  {
    var result := Apply(server, Diff(base, base[key := value]));
    forall k | k in result.Keys + server.Keys ensures AgreeAt(result, server[key := value], k) {
      DiffIsThreeWayMerge(server, base, base[key := value], k);
    }
  }

  lemma UpdatesReachServer<K, V>(server: map<K, V>, base: map<K, V>, key: K, value: V, key': K, value': V)
    requires AgreeAt(base, server, key) && AgreeAt(base, server, key')
    ensures Apply(server, Diff(base, base[key := value][key' := value'])) == server[key := value][key' := value']
  {
    var modified, wanted := base[key := value][key' := value'], server[key := value][key' := value'];
    var result := Apply(server, Diff(base, modified));
    forall k | k in result.Keys + wanted.Keys ensures AgreeAt(result, wanted, k) {
      DiffIsThreeWayMerge(server, base, modified, k);
    }
  }
}
