/** Which Secrets of an instance a backup keeps, kind by kind, and when it can
    be completed. */
module BackupScope {
  import opened Pulp
  import opened SecretBackup

  /** The Secret of the instance that the file of a kind is to hold. */
  function Holds(n: Names, k: Kind): Option<string> {
    match k
    case SecretKey => Some(n.secretKey)
    case AdminPassword => Some(n.admin)
    case Postgres => Some(n.postgres)
    case FieldsEncryption => Some(n.fields)
    case ContainerToken => Some(n.containerToken)
    case SigningKey => NonEmpty(n.signingKey)
    case SigningScripts => if n.signingKey == "" then None else Some(n.signingScripts)
    case ObjectStorage => if n.gcs != "" then Some(n.gcs) else if n.azure != "" then Some(n.azure) else NonEmpty(n.s3)
    case Sso => NonEmpty(n.sso)
    case LdapConfig => NonEmpty(n.ldapConfig)
    case LdapCa => NonEmpty(n.ldapCa)
  }

  function NonEmpty(name: string): Option<string> { if name == "" then None else Some(name) }

  function LastOfKind(entries: seq<Entry>, k: Kind): Option<string> {
    if entries == [] then None
    else if entries[|entries| - 1].kind == k then Some(entries[|entries| - 1].name)
    else LastOfKind(entries[..|entries| - 1], k)
  }

  lemma {:induction false} LastConcat(a: seq<Entry>, b: seq<Entry>, k: Kind)
    ensures LastOfKind(a + b, k) == if LastOfKind(b, k).Some? then LastOfKind(b, k) else LastOfKind(a, k)
  {
    if b == [] {
      assert a + b == a;
    } else {
      var m := |b| - 1;
      assert (a + b)[..|a + b| - 1] == a + b[..m] && (a + b)[|a + b| - 1] == b[m];
      LastConcat(a, b[..m], k);
    }
  }

  lemma {:induction false} FilesByKind(secrets: Secrets, entries: seq<Entry>, k: Kind)
    ensures BackedUp(secrets, entries).Some? <==> forall e :: e in entries ==> e.name in secrets
    ensures BackedUp(secrets, entries).Some? ==>
              var files, name := BackedUp(secrets, entries).value, LastOfKind(entries, k);
              && (k in files <==> name.Some?)
              && (name.Some? ==> name.value in secrets && files[k] == Encode(k, name.value, secrets[name.value]))
  {
    if entries != [] {
      var m := |entries| - 1;
      FilesByKind(secrets, entries[..m], k);
      assert forall e :: e in entries <==> e in entries[..m] || e == entries[m];
    }
  }

  lemma LastInOrder(es: seq<Entry>, k: Kind, low: nat, high: nat)
    requires (forall i :: 0 <= i < |es| ==> low < Place(es[i].kind) <= high) && !(low < Place(k) <= high)
    ensures LastOfKind(es, k) == None
  {
    if es != [] { LastInOrder(es[..|es| - 1], k, low, high); }
  }

  lemma LastOptional(o: Kind, name: string, k: Kind)
    ensures LastOfKind(Optional(o, name), k) == if k == o then NonEmpty(name) else None
  {
    if name != "" { assert Optional(o, name)[..0] == []; }
  }

  lemma LastTwo(x: Entry, y: Entry, k: Kind)
    ensures LastOfKind([x, y], k) == if y.kind == k then Some(y.name) else if x.kind == k then Some(x.name) else None
  {
    assert [x, y][..1] == [x] && [x][..0] == [];
    assert LastOfKind([x], k) == if x.kind == k then Some(x.name) else None;
  }

  lemma LastAlways(n: Names, k: Kind)
    ensures LastOfKind(AlwaysEntries(n), k) == if Place(k) <= 4 then Holds(n, k) else None
  {
    var a := AlwaysEntries(n);
    assert a == [a[0], a[1]] + [a[2], a[3]];
    LastTwo(a[0], a[1], k);
    LastTwo(a[2], a[3], k);
    LastConcat([a[0], a[1]], [a[2], a[3]], k);
  }

  lemma LastSigning(n: Names, k: Kind)
    ensures LastOfKind(SigningEntries(n), k) == if 4 < Place(k) <= 6 then Holds(n, k) else None
  {
    LastTwo(Entry(SigningKey, n.signingKey), Entry(SigningScripts, n.signingScripts), k);
  }

  lemma LastToken(n: Names, k: Kind)
    ensures LastOfKind([Entry(ContainerToken, n.containerToken)], k) == if k == ContainerToken then Some(n.containerToken) else None
  {
    assert [Entry(ContainerToken, n.containerToken)][..0] == [];
  }

  lemma LastStorage(n: Names, k: Kind)
    ensures LastOfKind(StorageEntries(n), k) == if k == ObjectStorage then Holds(n, k) else None
  {
    LastOptional(ObjectStorage, n.s3, k);
    LastOptional(ObjectStorage, n.azure, k);
    LastOptional(ObjectStorage, n.gcs, k);
    LastConcat(Optional(ObjectStorage, n.s3), Optional(ObjectStorage, n.azure), k);
    LastConcat(Optional(ObjectStorage, n.s3) + Optional(ObjectStorage, n.azure), Optional(ObjectStorage, n.gcs), k);
  }

  lemma LastOfSeven(a: seq<Entry>, b: seq<Entry>, t: seq<Entry>, d: seq<Entry>, e: seq<Entry>, f: seq<Entry>, g: seq<Entry>, k: Kind, x: Option<string>)
    requires forall s :: s in [a, b, t, d, e, f, g] ==> LastOfKind(s, k) == None || LastOfKind(s, k) == x
    requires x.Some? ==> exists s :: s in [a, b, t, d, e, f, g] && LastOfKind(s, k) == x
    ensures LastOfKind(a + b + t + d + e + f + g, k) == x
  {
    var all := [a, b, t, d, e, f, g];
    assert all[0] in all && all[1] in all && all[2] in all && all[3] in all && all[4] in all && all[5] in all && all[6] in all;
    LastConcat(a, b, k);
    LastConcat(a + b, t, k);
    LastConcat(a + b + t, d, k);
    LastConcat(a + b + t + d, e, k);
    LastConcat(a + b + t + d + e, f, k);
    LastConcat(a + b + t + d + e + f, g, k);
  }

  lemma LastEntries(n: Names, k: Kind)
    ensures LastOfKind(Entries(n), k) == Holds(n, k)
  {
    var token := [Entry(ContainerToken, n.containerToken)];
    LastAlways(n, k);
    LastSigning(n, k);
    LastToken(n, k);
    LastStorage(n, k);
    LastOptional(Sso, n.sso, k);
    LastOptional(LdapConfig, n.ldapConfig, k);
    LastOptional(LdapCa, n.ldapCa, k);
    var all := [AlwaysEntries(n), SigningEntries(n), token, StorageEntries(n), Optional(Sso, n.sso), Optional(LdapConfig, n.ldapConfig), Optional(LdapCa, n.ldapCa)];
    assert all[0] in all && all[1] in all && all[2] in all && all[3] in all && all[4] in all && all[5] in all && all[6] in all;
    LastOfSeven(AlwaysEntries(n), SigningEntries(n), token, StorageEntries(n), Optional(Sso, n.sso), Optional(LdapConfig, n.ldapConfig), Optional(LdapCa, n.ldapCa), k, Holds(n, k));
  }

  /** Every Secret of the instance has its file, and no other file is written;
      with several object storages the last one written stays. */
  lemma FilesExactly(secrets: Secrets, n: Names, k: Kind)
    requires BackedUp(secrets, Entries(n)).Some?
    ensures var files, name := BackedUp(secrets, Entries(n)).value, Holds(n, k);
      && (k in files <==> name.Some?)
      && (name.Some? ==> name.value in secrets && files[k] == Encode(k, name.value, secrets[name.value]))
  {
    FilesByKind(secrets, Entries(n), k);
    LastEntries(n, k);
  }

  lemma EntriesKinds(n: Names, e: Entry)
    requires AtMostOneStorage(n) && e in Entries(n)
    ensures Holds(n, e.kind) == Some(e.name)
  {
    assert e in AlwaysEntries(n) || e in SigningEntries(n) || e == Entry(ContainerToken, n.containerToken) || e in StorageEntries(n)
        || e in Optional(Sso, n.sso) || e in Optional(LdapConfig, n.ldapConfig) || e in Optional(LdapCa, n.ldapCa);
    if e in StorageEntries(n) { StorageKinds(n, e); }
  }

  lemma StorageKinds(n: Names, e: Entry)
    requires AtMostOneStorage(n) && e in StorageEntries(n)
    ensures e.kind == ObjectStorage && Holds(n, e.kind) == Some(e.name)
  {
  }

  /** With one object storage at most, the backup completes exactly when every
      Secret that a file is to hold exists. */
  lemma BackupCompletes(secrets: Secrets, n: Names)
    requires AtMostOneStorage(n)
    ensures BackedUp(secrets, Entries(n)).Some? <==> forall k: Kind :: Holds(n, k).Some? ==> Holds(n, k).value in secrets
  {
    FilesByKind(secrets, Entries(n), SecretKey);
    if BackedUp(secrets, Entries(n)).Some? {
      forall k: Kind | Holds(n, k).Some? ensures Holds(n, k).value in secrets { FilesExactly(secrets, n, k); }
    } else {
      var e :| e in Entries(n) && e.name !in secrets;
      EntriesKinds(n, e);
    }
  }
}
