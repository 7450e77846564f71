/** The genesis gate of the sidecar and of the assembler. */
module Gate {
  import opened Components
  import opened ApiServer

  function GateNamespace(ref: GenesisRef, namespace: string): string {
    NonEmpty(ref.secretNamespace, namespace)
  }

  function GateKey(ref: GenesisRef, namespace: string): Key {
    Key(Secret, GateNamespace(ref, namespace), ref.secretName)
  }

  function GateEntry(ref: GenesisRef): string {
    NonEmpty(ref.secretKey, "genesis.block")
  }

  /** Nothing is asked for, or the secret has the entry. */
  predicate Opens<S, T>(db: Db<S, T>, ref: GenesisRef, namespace: string) {
    || ref.secretName == ""
    || (GateKey(ref, namespace) in db.objects && GateEntry(ref) in db.objects[GateKey(ref, namespace)].data)
  }

  /** The entry the pod mounts: a secret volume is always looked up in the pod's
      own namespace. */
  predicate Mounts<S, T>(db: Db<S, T>, ref: GenesisRef, namespace: string) {
    && Key(Secret, namespace, ref.secretName) in db.objects
    && GateEntry(ref) in db.objects[Key(Secret, namespace, ref.secretName)].data
  }

  /** The gate vouches for the mount exactly when a secret is named and the gate
      looks into the pod's namespace.  Without a name it opens, but the pod mounts
      a secret all the same. */
  lemma GateVouchesIff<S(!new), T(!new)>(ref: GenesisRef, namespace: string, o: Object<S, T>)
    ensures (forall db: Db<S, T> :: Opens(db, ref, namespace) ==> Mounts(db, ref, namespace)) <==>
            ref.secretName != "" && (ref.secretNamespace == "" || ref.secretNamespace == namespace)
  {
    if ref.secretName == "" {
      var empty: Db<S, T> := Db(map[], 1);
      assert Opens(empty, ref, namespace) && !Mounts(empty, ref, namespace);
    } else if ref.secretNamespace != "" && ref.secretNamespace != namespace {
      var elsewhere: Db<S, T> := Db(map[GateKey(ref, namespace) := o.(data := map[GateEntry(ref) := ""])], 1);
      assert Opens(elsewhere, ref, namespace) && !Mounts(elsewhere, ref, namespace);
    } else {
      assert GateKey(ref, namespace) == Key(Secret, namespace, ref.secretName);
    }
  }
}
