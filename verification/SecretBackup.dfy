/** What a backup keeps of the Secrets of a Pulp instance. Most kinds are
    written as one flat map of strings, with the name of the Secret under a tag
    of its own, and read back through a struct with fixed fields; the others are
    written as whole objects. Text formats are taken to be inverse. */
module SecretBackup {
  import opened Pulp
  import S = Settings

  type Data = map<string, string>

  type Secrets = map<string, Data>

  /** One kind for each backup file; the three object storages share one. */
  datatype Kind =
    | SecretKey | AdminPassword | Postgres | FieldsEncryption | SigningKey | SigningScripts | ContainerToken
    | ObjectStorage | Sso | LdapConfig | LdapCa

  /** Kinds that are written and read as whole objects. */
  predicate Whole(k: Kind) { k == SecretKey || k == SigningScripts || k == LdapConfig || k == LdapCa }

  /** Kinds whose missing file makes the restore fail. */
  predicate Mandatory(k: Kind) { k == AdminPassword || k == Postgres || k == FieldsEncryption }

  /** The key under which the file keeps the name of the Secret. */
  function Tag(k: Kind): string {
    match k
    case AdminPassword => "admin_password_secret"
    case Postgres => "postgres_secret"
    case FieldsEncryption => "db_fields_encryption_secret"
    case SigningKey => "signing_secret"
    case ContainerToken => "container_token_secret"
    case ObjectStorage => "storage_secret"
    case Sso => "sso_secret"
    case _ => ""
  }

  const STORAGE_KEYS := ["s3-access-key-id", "s3-bucket-name", "s3-region", "s3-endpoint", "s3-secret-access-key",
                         "azure-account-name", "azure-account-key", "azure-container", "azure-container-path",
                         "azure-connection-string", "gcs-bucket-name", "gcs-iam-sign-blob", "gcs-querystring-auth", "gcs-file-overwrite"]
  const SSO_KEYS := ["keycloak_admin_role", "keycloak_group_token_claim", "keycloak_host", "keycloak_port", "keycloak_protocol",
                     "keycloak_realm", "social_auth_keycloak_key", "social_auth_keycloak_public_key", "social_auth_keycloak_secret"]
  const POSTGRES_KEYS := ["database", "host", "password", "port", "sslmode", "type", "username"]

  /** The fields of the kind's struct, the name's own field apart. */
  function Keys(k: Kind): seq<string> {
    match k
    case AdminPassword => ["password"]
    case Postgres => POSTGRES_KEYS
    case FieldsEncryption => ["database_fields.symmetric.key"]
    case SigningKey => ["signing_service.gpg"]
    case ContainerToken => ["container_auth_public_key.pem", "container_auth_private_key.pem"]
    case ObjectStorage => STORAGE_KEYS
    case Sso => SSO_KEYS
    case _ => []
  }

  lemma TagsAreNotKeys(k: Kind)
    ensures Tag(k) !in Keys(k)
  {
    match k
    case AdminPassword => assert |Tag(k)| == 21 && |Keys(k)[0]| == 8;
    case Postgres => assert |Tag(k)| == 15; assert forall x :: x in POSTGRES_KEYS ==> |x| < 15;
    case FieldsEncryption => assert |Tag(k)| == 27 && |Keys(k)[0]| == 29;
    case SigningKey => assert |Tag(k)| == 14 && |Keys(k)[0]| == 19;
    case ContainerToken => assert |Tag(k)| == 22 && |Keys(k)[0]| == 29 && |Keys(k)[1]| == 30;
    case ObjectStorage => StorageTagNotKey();
    case Sso => assert |Tag(k)| == 10; assert forall x :: x in SSO_KEYS ==> |x| > 10;
    case _ =>
  }

  lemma StorageTagNotKey()
    ensures "storage_secret" !in STORAGE_KEYS
  {
    assert "storage_secret"[1] == 't';
    assert forall x :: x in STORAGE_KEYS ==> |x| > 1 && x[1] != 't';
  }

  datatype Content = Flat(entries: Data) | Object(name: string, data: Data)

  type Files = map<Kind, Content>

  // ---- the two directions, as functions ----

  function Encode(k: Kind, name: string, data: Data): Content {
    if Whole(k) then Object(name, data) else Flat(map[Tag(k) := name] + data)
  }

  function NameOf(k: Kind, c: Content): string {
    match c
    case Object(name, _) => name
    case Flat(e) => if Tag(k) in e then e[Tag(k)] else ""
  }

  function DataOf(k: Kind, c: Content): Data {
    match c
    case Object(_, data) => data
    case Flat(e) => map x | x in e && x in Keys(k) && e[x] != "" :: e[x]
  }

  /** What a kind can carry: the non-empty values of its known keys. */
  function Carried(k: Kind, data: Data): Data {
    if Whole(k) then data else map x | x in data && x in Keys(k) && data[x] != "" :: data[x]
  }

  // ---- the two directions, as the source runs them ----

  /** `createBackupFile`: the name first, then every entry of the Secret in
      whatever order the map gives them. */
  method CreateBackupFile(secrets: Secrets, k: Kind, name: string) returns (file: Option<Content>)
    requires !Whole(k)
    ensures file == if name in secrets then Some(Encode(k, name, secrets[name])) else None
  {
    if name !in secrets { return None; }
    var data := secrets[name];
    var content := map[Tag(k) := name];
    var left := data.Keys;
    while left != {}
      invariant left <= data.Keys
      invariant content == map[Tag(k) := name] + (data - left)
      decreases |left|
    {
      var key :| key in left;
      content := content[key := data[key]];
      left := left - {key};
    }
    assert data - {} == data;
    return Some(Flat(content));
  }

  method CreateSecretBackupFile(secrets: Secrets, k: Kind, name: string) returns (file: Option<Content>)
    requires Whole(k)
    ensures file == if name in secrets then Some(Encode(k, name, secrets[name])) else None
  {
    if name !in secrets { return None; }
    return Some(Object(name, secrets[name]));
  }

  /** The loop over the struct's fields: the tagged one is the name, the others
      are data unless empty. A field the file lacks is empty. */
  method ReadStruct(tag: string, keys: seq<string>, entries: Data) returns (name: string, data: Data)
    requires tag !in keys
    ensures name == if tag in entries then entries[tag] else ""
    ensures data == map x | x in entries && x in keys && entries[x] != "" :: entries[x]
  {
    var fields := [tag] + keys;
    name, data := "", map[];
    for i := 0 to |fields|
      invariant i > 0 ==> name == if tag in entries then entries[tag] else ""
      invariant data == map x | x in entries && x in fields[..i] && x != tag && entries[x] != "" :: entries[x]
    {
      assert fields[..i + 1] == fields[..i] + [fields[i]];
      var value := if fields[i] in entries then entries[fields[i]] else "";
      if fields[i] == tag {
        name := value;
        continue;
      }
      if value != "" { data := data[fields[i] := value]; }
    }
    assert fields[..|fields|] == fields;
    assert forall x :: x in fields && x != tag <==> x in keys;
  }

  method ReadFields(k: Kind, entries: Data) returns (name: string, data: Data)
    requires !Whole(k)
    ensures name == NameOf(k, Flat(entries)) && data == DataOf(k, Flat(entries))
  {
    TagsAreNotKeys(k);
    name, data := ReadStruct(Tag(k), Keys(k), entries);
  }

  // ---- one Secret ----

  /** Restoring what was written gives exactly what the kind can carry, under
      the same name unless the Secret itself has a key named like the tag. */
  lemma SecretRoundTrip(k: Kind, name: string, data: Data)
    ensures DataOf(k, Encode(k, name, data)) == Carried(k, data)
    ensures NameOf(k, Encode(k, name, data)) == name <==> Whole(k) || Tag(k) !in data || data[Tag(k)] == name
  {
    if !Whole(k) {
      TagsAreNotKeys(k);
      var e := map[Tag(k) := name] + data;
      assert forall x :: x in e && x in Keys(k) <==> x in data && x in Keys(k);
    }
  }

  /** Identity on the Secrets that only use known keys with values in them. */
  lemma CarriedWhole(k: Kind, data: Data)
    ensures Carried(k, data) == data <==> Whole(k) || forall x :: x in data ==> x in Keys(k) && data[x] != ""
  {
    if !Whole(k) && forall x :: x in data ==> x in Keys(k) && data[x] != "" {
      assert Carried(k, data) == data;
    }
    if !Whole(k) && !(forall x :: x in data ==> x in Keys(k) && data[x] != "") {
      var x :| x in data && !(x in Keys(k) && data[x] != "");
      assert x !in Carried(k, data);
    }
  }

  /** The Secrets the operator generates: their values are never empty. */
  predicate Generated(k: Kind, data: Data) {
    && (forall x :: x in data ==> data[x] != "")
    && match k
       case AdminPassword => data.Keys == {"password"}
       case Postgres => data.Keys == {"password", "username", "database", "port", "host", "sslmode", "type"}
       case FieldsEncryption => data.Keys == {"database_fields.symmetric.key"}
       case ContainerToken => data.Keys == {"container_auth_private_key.pem", "container_auth_public_key.pem"}
       case _ => false
  }

  lemma PostgresKeysKnown(x: string)
    requires x in {"password", "username", "database", "port", "host", "sslmode", "type"}
    ensures x in POSTGRES_KEYS
  {
    assert POSTGRES_KEYS[0] == "database" && POSTGRES_KEYS[1] == "host" && POSTGRES_KEYS[2] == "password" && POSTGRES_KEYS[3] == "port"
        && POSTGRES_KEYS[4] == "sslmode" && POSTGRES_KEYS[5] == "type" && POSTGRES_KEYS[6] == "username";
  }

  lemma GeneratedKeysKnown(k: Kind, data: Data, x: string)
    requires Generated(k, data) && x in data
    ensures x in Keys(k)
  {
    assert x in data.Keys;
    match k
    case AdminPassword => assert Keys(k)[0] == "password";
    case Postgres => PostgresKeysKnown(x);
    case FieldsEncryption => assert Keys(k)[0] == "database_fields.symmetric.key";
    case ContainerToken => assert Keys(k)[0] == "container_auth_public_key.pem" && Keys(k)[1] == "container_auth_private_key.pem";
    case _ =>
  }

  lemma GeneratedSecretsSurvive(k: Kind, name: string, data: Data)
    requires Generated(k, data)
    ensures DataOf(k, Encode(k, name, data)) == data && NameOf(k, Encode(k, name, data)) == name
  {
    forall x | x in data ensures x in Keys(k) { GeneratedKeysKnown(k, data, x); }
    SecretRoundTrip(k, name, data);
    CarriedWhole(k, data);
    TagsAreNotKeys(k);
  }

  // ---- keys the structs do not know ----

  lemma UnknownStorageKeys()
    ensures "s3-addressing-style" !in STORAGE_KEYS
  {
    assert |"s3-addressing-style"| == 19 && "s3-addressing-style"[3] == 'a';
    assert forall x :: x in STORAGE_KEYS && |x| == 19 ==> x[3] != 'a';
  }

  lemma UnknownSsoKeys()
    ensures "keycloak_role_token_claim" !in SSO_KEYS && "keycloak_host_loopback" !in SSO_KEYS
  {
    assert |"keycloak_role_token_claim"| == 25 && |"keycloak_host_loopback"| == 22;
    assert forall x :: x in SSO_KEYS ==> |x| != 25 && |x| != 22;
  }

  lemma UnknownPostgresKeys(x: string)
    requires |x| >= 13
    ensures x !in POSTGRES_KEYS
  {
    assert forall y :: y in POSTGRES_KEYS ==> |y| < 13;
  }

  /** Three keys the settings rendering understands are lost by every restore,
      and so are all keys of an external database's Secret. */
  lemma KeysLostByRestore(name: string, data: Data)
    ensures "s3-addressing-style" !in DataOf(ObjectStorage, Encode(ObjectStorage, name, data))
    ensures "keycloak_role_token_claim" !in DataOf(Sso, Encode(Sso, name, data))
    ensures "keycloak_host_loopback" !in DataOf(Sso, Encode(Sso, name, data))
    ensures forall x :: x in S.EXTERNAL_DB_KEYS ==> x !in DataOf(Postgres, Encode(Postgres, name, data))
  {
    SecretRoundTrip(ObjectStorage, name, data);
    SecretRoundTrip(Sso, name, data);
    SecretRoundTrip(Postgres, name, data);
    UnknownStorageKeys();
    UnknownSsoKeys();
    forall x | x in S.EXTERNAL_DB_KEYS ensures x !in POSTGRES_KEYS {
      UnknownPostgresKeys(x);
    }
  }

  /** The visible effect: whatever addressing style the instance used, the
      restored one renders "path". */
  lemma RestoredAddressingStyleIsPath(name: string, data: Data)
    ensures S.AddressingStyle(Some(DataOf(ObjectStorage, Encode(ObjectStorage, name, data)))) == "path"
  {
    KeysLostByRestore(name, data);
  }

  // ---- the whole backup ----

  datatype Names = Names(
    secretKey: string, admin: string, postgres: string, fields: string, signingKey: string, signingScripts: string,
    containerToken: string, s3: string, azure: string, gcs: string, sso: string, ldapConfig: string, ldapCa: string)

  datatype Entry = Entry(kind: Kind, name: string)

  function Optional(k: Kind, name: string): seq<Entry> { if name == "" then [] else [Entry(k, name)] }

  function AlwaysEntries(n: Names): seq<Entry> {
    [Entry(SecretKey, n.secretKey), Entry(AdminPassword, n.admin), Entry(Postgres, n.postgres), Entry(FieldsEncryption, n.fields)]
  }

  function SigningEntries(n: Names): seq<Entry> {
    if n.signingKey == "" then [] else [Entry(SigningKey, n.signingKey), Entry(SigningScripts, n.signingScripts)]
  }

  function StorageEntries(n: Names): seq<Entry> {
    Optional(ObjectStorage, n.s3) + Optional(ObjectStorage, n.azure) + Optional(ObjectStorage, n.gcs)
  }

  /** The files in the order the backup writes them. */
  function Entries(n: Names): seq<Entry> {
    AlwaysEntries(n) + SigningEntries(n) + [Entry(ContainerToken, n.containerToken)] + StorageEntries(n)
    + Optional(Sso, n.sso) + Optional(LdapConfig, n.ldapConfig) + Optional(LdapCa, n.ldapCa)
  }

  function BackedUp(secrets: Secrets, entries: seq<Entry>): Option<Files> {
    if entries == [] then Some(map[])
    else
      var last := entries[|entries| - 1];
      match BackedUp(secrets, entries[..|entries| - 1])
      case None => None
      case Some(files) =>
        if last.name in secrets then Some(files[last.kind := Encode(last.kind, last.name, secrets[last.name])]) else None
  }

  /** `backupSecret`: one file after the other, stopping at the first Secret
      that cannot be found. The straight-line calls are kept as a list. */
  method BackupSecret(secrets: Secrets, entries: seq<Entry>) returns (result: Option<Files>)
    ensures result == BackedUp(secrets, entries)
  {
    var files: Files := map[];
    for i := 0 to |entries|
      invariant BackedUp(secrets, entries[..i]) == Some(files)
    {
      assert entries[..i + 1][..i] == entries[..i];
      var file;
      if Whole(entries[i].kind) {
        file := CreateSecretBackupFile(secrets, entries[i].kind, entries[i].name);
      } else {
        file := CreateBackupFile(secrets, entries[i].kind, entries[i].name);
      }
      if file.None? {
        NoneStays(secrets, entries, i + 1);
        return None;
      }
      files := files[entries[i].kind := file.value];
    }
    assert entries[..|entries|] == entries;
    return Some(files);
  }

  lemma {:induction false} NoneStays(secrets: Secrets, entries: seq<Entry>, i: nat)
    requires i <= |entries| && BackedUp(secrets, entries[..i]).None?
    ensures BackedUp(secrets, entries).None?
    decreases |entries| - i
  {
    if i == |entries| {
      assert entries[..i] == entries;
    } else {
      assert entries[..i + 1][..i] == entries[..i];
      NoneStays(secrets, entries, i + 1);
    }
  }

  // ---- the whole restore ----

  const RESTORE_ORDER: seq<Kind> :=
    [SecretKey, AdminPassword, Postgres, FieldsEncryption, ContainerToken, ObjectStorage, SigningKey, SigningScripts, Sso, LdapConfig, LdapCa]

  /** The Secrets of the target namespace after the restore; `None` when a
      mandatory file is missing. A Secret that exists is never overwritten. */
  function Restored(files: Files, secrets: Secrets, order: seq<Kind>): Option<Secrets>
    decreases |order|
  {
    if order == [] then Some(secrets)
    else if order[0] !in files then (if Mandatory(order[0]) then None else Restored(files, secrets, order[1..]))
    else
      var c := files[order[0]];
      var n := NameOf(order[0], c);
      Restored(files, if n in secrets then secrets else secrets[n := DataOf(order[0], c)], order[1..])
  }

  class RestoreController {
    var secrets: Secrets

    constructor (secrets: Secrets)
      ensures this.secrets == secrets
    {
      this.secrets := secrets;
    }

    /** `secret` and `restoreSecretFromYaml`: whether the file was found. */
    method Secret(files: Files, k: Kind) returns (found: bool)
      requires k in files ==> files[k].Object? == Whole(k)
      modifies `secrets
      ensures found <==> k in files
      ensures secrets == if k !in files || NameOf(k, files[k]) in old(secrets) then old(secrets)
                         else old(secrets)[NameOf(k, files[k]) := DataOf(k, files[k])]
    {
      if k !in files { return false; }
      var name, data;
      match files[k] {
        case Object(n, d) => name, data := n, d;
        case Flat(e) => name, data := ReadFields(k, e);
      }
      if name !in secrets { secrets := secrets[name := data]; }
      return true;
    }

    method RestoreSecret(files: Files) returns (ok: bool)
      requires forall k :: k in files ==> files[k].Object? == Whole(k)
      modifies `secrets
      ensures ok <==> Restored(files, old(secrets), RESTORE_ORDER).Some?
      ensures ok ==> Some(secrets) == Restored(files, old(secrets), RESTORE_ORDER)
    {
      for i := 0 to |RESTORE_ORDER|
        invariant Restored(files, secrets, RESTORE_ORDER[i..]) == Restored(files, old(secrets), RESTORE_ORDER)
      {
        var k := RESTORE_ORDER[i];
        assert RESTORE_ORDER[i..][0] == k && RESTORE_ORDER[i..][1..] == RESTORE_ORDER[i + 1..];
        var found := Secret(files, k);
        if !found && Mandatory(k) { return false; }
      }
      return true;
    }
  }

  // ---- backup, then restore ----

  ghost predicate KindsDistinct(entries: seq<Entry>) {
    forall i, j :: 0 <= i < j < |entries| ==> entries[i].kind != entries[j].kind
  }

  ghost predicate NamesDistinct(entries: seq<Entry>) {
    forall i, j :: 0 <= i < j < |entries| ==> entries[i].name != entries[j].name
  }

  /** Each entry's file holds the encoding of its Secret. */
  lemma {:induction false} FilesHoldEntries(secrets: Secrets, entries: seq<Entry>, i: nat)
    requires KindsDistinct(entries) && i < |entries| && BackedUp(secrets, entries).Some?
    ensures entries[i].name in secrets && entries[i].kind in BackedUp(secrets, entries).value
    ensures BackedUp(secrets, entries).value[entries[i].kind] == Encode(entries[i].kind, entries[i].name, secrets[entries[i].name])
  {
    if i < |entries| - 1 { FilesHoldEntries(secrets, entries[..|entries| - 1], i); }
  }

  lemma {:induction false} FilesOnlyEntries(secrets: Secrets, entries: seq<Entry>, k: Kind)
    requires BackedUp(secrets, entries).Some? && k in BackedUp(secrets, entries).value
    ensures exists i :: 0 <= i < |entries| && entries[i].kind == k
  {
    var n := |entries| - 1;
    if entries[n].kind != k {
      FilesOnlyEntries(secrets, entries[..n], k);
      var i :| 0 <= i < n && entries[..n][i].kind == k;
      assert entries[i].kind == k;
    }
  }

  /** A completed backup has every file whose absence would stop a restore. */
  lemma CompletedBackupHasMandatoryFiles(secrets: Secrets, n: Names, k: Kind)
    requires BackedUp(secrets, Entries(n)).Some? && Mandatory(k)
    ensures k in BackedUp(secrets, Entries(n)).value
  {
    var es := Entries(n);
    assert es[1].kind == AdminPassword && es[2].kind == Postgres && es[3].kind == FieldsEncryption;
    MentionedIsWritten(secrets, es, if k == AdminPassword then 1 else if k == Postgres then 2 else 3);
  }

  lemma {:induction false} MentionedIsWritten(secrets: Secrets, entries: seq<Entry>, i: nat)
    requires i < |entries| && BackedUp(secrets, entries).Some?
    ensures entries[i].kind in BackedUp(secrets, entries).value
  {
    if i < |entries| - 1 { MentionedIsWritten(secrets, entries[..|entries| - 1], i); }
  }

  ghost predicate NamesApart(files: Files, order: seq<Kind>) {
    forall i, j :: 0 <= i < j < |order| && order[i] in files && order[j] in files
      ==> NameOf(order[i], files[order[i]]) != NameOf(order[j], files[order[j]])
  }

  /** What a restore does to the namespace: nothing is overwritten, every file's
      Secret exists afterwards, with the file's data if it was new. */
  lemma {:induction false} RestoreLaws(files: Files, t: Secrets, order: seq<Kind>)
    requires NamesApart(files, order) && forall k :: k in order && Mandatory(k) ==> k in files
    ensures Restored(files, t, order).Some?
    ensures var r := Restored(files, t, order).value;
      && (forall n :: n in t ==> n in r && r[n] == t[n])
      && (forall k :: k in order && k in files ==>
            NameOf(k, files[k]) in r && (NameOf(k, files[k]) !in t ==> r[NameOf(k, files[k])] == DataOf(k, files[k])))
      && (forall n :: n in r && n !in t ==> exists k :: k in order && k in files && NameOf(k, files[k]) == n)
    decreases |order|
  {
    if order != [] {
      var k, rest := order[0], order[1..];
      assert forall x :: x in order <==> x == k || x in rest;
      assert k in order;
      var u := if k !in files || NameOf(k, files[k]) in t then t else t[NameOf(k, files[k]) := DataOf(k, files[k])];
      RestoreLaws(files, u, rest);
      var r := Restored(files, t, order).value;
      if k in files {
        forall x | x in rest && x in files ensures NameOf(x, files[x]) != NameOf(k, files[k]) {
          var j :| 0 <= j < |rest| && rest[j] == x;
          assert order[j + 1] == x;
        }
      }
      forall n | n in r && n !in t ensures exists x :: x in order && x in files && NameOf(x, files[x]) == n {
        if n in u {
          assert n == NameOf(k, files[k]);
        } else {
          var x :| x in rest && x in files && NameOf(x, files[x]) == n;
          assert x in order;
        }
      }
    }
  }

  lemma AllKindsRestored(k: Kind)
    ensures k in RESTORE_ORDER
  {
    var o := RESTORE_ORDER;
    assert o[0] == SecretKey && o[1] == AdminPassword && o[2] == Postgres && o[3] == FieldsEncryption && o[4] == ContainerToken && o[5] == ObjectStorage
        && o[6] == SigningKey && o[7] == SigningScripts && o[8] == Sso && o[9] == LdapConfig && o[10] == LdapCa;
    match k
    case SecretKey => case AdminPassword => case Postgres => case FieldsEncryption => case SigningKey => case SigningScripts =>
    case ContainerToken => case ObjectStorage => case Sso => case LdapConfig => case LdapCa =>
  }

  /** No Secret has a key named like its kind's tag with another value. */
  ghost predicate TagsFree(secrets: Secrets, entries: seq<Entry>) {
    forall e :: e in entries && e.name in secrets && !Whole(e.kind) ==> Tag(e.kind) !in secrets[e.name] || secrets[e.name][Tag(e.kind)] == e.name
  }

  lemma EntriesNamesApart(secrets: Secrets, entries: seq<Entry>, order: seq<Kind>)
    requires KindsDistinct(entries) && NamesDistinct(entries) && TagsFree(secrets, entries)
    requires BackedUp(secrets, entries).Some?
    requires forall i, j :: 0 <= i < j < |order| ==> order[i] != order[j]
    ensures NamesApart(BackedUp(secrets, entries).value, order)
  {
    var files := BackedUp(secrets, entries).value;
    forall i, j | 0 <= i < j < |order| && order[i] in files && order[j] in files
      ensures NameOf(order[i], files[order[i]]) != NameOf(order[j], files[order[j]])
    {
      var a := EntryOf(secrets, entries, order[i]);
      var b := EntryOf(secrets, entries, order[j]);
    }
  }

  lemma EntryOf(secrets: Secrets, entries: seq<Entry>, k: Kind) returns (i: nat)
    requires KindsDistinct(entries) && TagsFree(secrets, entries) && BackedUp(secrets, entries).Some? && k in BackedUp(secrets, entries).value
    ensures i < |entries| && entries[i].kind == k && entries[i].name in secrets
    ensures NameOf(k, BackedUp(secrets, entries).value[k]) == entries[i].name
    ensures DataOf(k, BackedUp(secrets, entries).value[k]) == Carried(k, secrets[entries[i].name])
  {
    FilesOnlyEntries(secrets, entries, k);
    i :| 0 <= i < |entries| && entries[i].kind == k;
    FilesHoldEntries(secrets, entries, i);
    SecretRoundTrip(k, entries[i].name, secrets[entries[i].name]);
    assert entries[i] in entries;
  }

  lemma OrderHasNoRepeats()
    ensures forall i, j :: 0 <= i < j < |RESTORE_ORDER| ==> RESTORE_ORDER[i] != RESTORE_ORDER[j]
  {
  }

  /** Backup then restore: every Secret of the instance comes back under its
      name with exactly what its kind can carry, unless the namespace already
      has a Secret of that name, which is left as it is; and nothing else
      appears. */
  lemma BackupThenRestore(secrets: Secrets, n: Names, target: Secrets)
    requires KindsDistinct(Entries(n)) && NamesDistinct(Entries(n)) && TagsFree(secrets, Entries(n))
    requires BackedUp(secrets, Entries(n)).Some?
    ensures Restored(BackedUp(secrets, Entries(n)).value, target, RESTORE_ORDER).Some?
    ensures var r := Restored(BackedUp(secrets, Entries(n)).value, target, RESTORE_ORDER).value;
      && (forall x :: x in target ==> x in r && r[x] == target[x])
      && (forall e :: e in Entries(n) ==> e.name in secrets && e.name in r && (e.name !in target ==> r[e.name] == Carried(e.kind, secrets[e.name])))
      && (forall x :: x in r && x !in target ==> exists e :: e in Entries(n) && e.name == x)
  {
    var es := Entries(n);
    var files := BackedUp(secrets, es).value;
    OrderHasNoRepeats();
    EntriesNamesApart(secrets, es, RESTORE_ORDER);
    forall k | k in RESTORE_ORDER && Mandatory(k) ensures k in files { CompletedBackupHasMandatoryFiles(secrets, n, k); }
    RestoreLaws(files, target, RESTORE_ORDER);
    var r := Restored(files, target, RESTORE_ORDER).value;
    forall e | e in es
      ensures e.name in secrets && e.name in r && (e.name !in target ==> r[e.name] == Carried(e.kind, secrets[e.name]))
    {
      var i :| 0 <= i < |es| && es[i] == e;
      FilesHoldEntries(secrets, es, i);
      SecretRoundTrip(e.kind, e.name, secrets[e.name]);
      AllKindsRestored(e.kind);
    }
    forall x | x in r && x !in target ensures exists e :: e in es && e.name == x {
      var k :| k in RESTORE_ORDER && k in files && NameOf(k, files[k]) == x;
      var i := EntryOf(secrets, es, k);
      assert es[i] in es;
    }
  }

  // ---- Secrets that share a name ----

  /** The first kind of the order whose file restores this name. */
  function FirstFile(files: Files, order: seq<Kind>, x: string): Option<Kind>
    decreases |order|
  {
    if order == [] then None
    else if order[0] in files && NameOf(order[0], files[order[0]]) == x then Some(order[0])
    else FirstFile(files, order[1..], x)
  }

  lemma {:induction false} FirstFileIsOne(files: Files, order: seq<Kind>, x: string)
    ensures FirstFile(files, order, x).Some? ==> var k := FirstFile(files, order, x).value; k in order && k in files && NameOf(k, files[k]) == x
    ensures FirstFile(files, order, x).None? ==> forall k :: k in order && k in files ==> NameOf(k, files[k]) != x
    decreases |order|
  {
    if order != [] {
      FirstFileIsOne(files, order[1..], x);
      assert forall k :: k in order <==> k == order[0] || k in order[1..];
    }
  }

  /** Without any assumption on the names: a Secret that exists stays, and of the
      files that share a name the first in the order of the restore decides. */
  lemma {:induction false} FirstFileDecides(files: Files, t: Secrets, order: seq<Kind>, x: string)
    requires forall k :: k in order && Mandatory(k) ==> k in files
    ensures Restored(files, t, order).Some?
    ensures var r, k := Restored(files, t, order).value, FirstFile(files, order, x);
      && (x in r <==> x in t || k.Some?)
      && (x in t ==> r[x] == t[x])
      && (x !in t && k.Some? ==> k.value in files && r[x] == DataOf(k.value, files[k.value]))
    decreases |order|
  {
    FirstFileIsOne(files, order, x);
    if order != [] {
      var k, rest := order[0], order[1..];
      assert k in order && forall j :: j in rest ==> j in order;
      var u := if k !in files || NameOf(k, files[k]) in t then t else t[NameOf(k, files[k]) := DataOf(k, files[k])];
      FirstFileDecides(files, u, rest, x);
    }
  }

  /** The kind of the CR's entry of that name that is restored first. */
  function FirstKind(entries: seq<Entry>, order: seq<Kind>, x: string): Option<Kind>
    decreases |order|
  {
    if order == [] then None else if Entry(order[0], x) in entries then Some(order[0]) else FirstKind(entries, order[1..], x)
  }

  lemma {:induction false} FirstFileIsFirstKind(secrets: Secrets, entries: seq<Entry>, order: seq<Kind>, x: string)
    requires KindsDistinct(entries) && TagsFree(secrets, entries) && BackedUp(secrets, entries).Some?
    ensures FirstFile(BackedUp(secrets, entries).value, order, x) == FirstKind(entries, order, x)
    decreases |order|
  {
    if order != [] {
      FileIsEntry(secrets, entries, order[0], x);
      FirstFileIsFirstKind(secrets, entries, order[1..], x);
    }
  }

  lemma FileIsEntry(secrets: Secrets, entries: seq<Entry>, k: Kind, x: string)
    requires KindsDistinct(entries) && TagsFree(secrets, entries) && BackedUp(secrets, entries).Some?
    ensures var files := BackedUp(secrets, entries).value;
      && (k in files && NameOf(k, files[k]) == x <==> Entry(k, x) in entries)
      && (Entry(k, x) in entries ==> x in secrets && DataOf(k, files[k]) == Carried(k, secrets[x]))
  {
    if Entry(k, x) in entries {
      var j :| 0 <= j < |entries| && entries[j] == Entry(k, x);
      FilesHoldEntries(secrets, entries, j);
    }
    if k in BackedUp(secrets, entries).value {
      var i := EntryOf(secrets, entries, k);
      assert entries[i] == Entry(k, entries[i].name) && entries[i] in entries;
    }
  }

  lemma {:induction false} FirstKindIsOne(entries: seq<Entry>, order: seq<Kind>, x: string)
    ensures FirstKind(entries, order, x).Some? ==> Entry(FirstKind(entries, order, x).value, x) in entries
    ensures FirstKind(entries, order, x).None? ==> forall k :: k in order ==> Entry(k, x) !in entries
    decreases |order|
  {
    if order != [] {
      FirstKindIsOne(entries, order[1..], x);
      assert forall k :: k in order <==> k == order[0] || k in order[1..];
    }
  }

  /** Backup then restore when entries may share a Secret: of every name that is
      new in the namespace, the entry restored first decides what comes back, and
      so another entry of that name gets what its own kind carries exactly when
      the two carry the same. */
  lemma SharedNamesFirstWins(secrets: Secrets, n: Names, target: Secrets, e: Entry)
    requires KindsDistinct(Entries(n)) && TagsFree(secrets, Entries(n)) && BackedUp(secrets, Entries(n)).Some? && e in Entries(n)
    ensures Restored(BackedUp(secrets, Entries(n)).value, target, RESTORE_ORDER).Some?
    ensures var r, first := Restored(BackedUp(secrets, Entries(n)).value, target, RESTORE_ORDER).value, FirstKind(Entries(n), RESTORE_ORDER, e.name);
      && e.name in secrets && e.name in r && first.Some? && Entry(first.value, e.name) in Entries(n)
      && (e.name in target ==> r[e.name] == target[e.name])
      && (e.name !in target ==>
            && r[e.name] == Carried(first.value, secrets[e.name])
            && (r[e.name] == Carried(e.kind, secrets[e.name]) <==> Carried(first.value, secrets[e.name]) == Carried(e.kind, secrets[e.name])))
  {
    var es := Entries(n);
    var files := BackedUp(secrets, es).value;
    forall k | k in RESTORE_ORDER && Mandatory(k) ensures k in files { CompletedBackupHasMandatoryFiles(secrets, n, k); }
    FirstFileDecides(files, target, RESTORE_ORDER, e.name);
    FirstFileIsFirstKind(secrets, es, RESTORE_ORDER, e.name);
    FirstKindIsOne(es, RESTORE_ORDER, e.name);
    AllKindsRestored(e.kind);
    FileIsEntry(secrets, es, FirstKind(es, RESTORE_ORDER, e.name).value, e.name);
  }

  /** Where a kind stands in the order of the backup. */
  function Place(k: Kind): nat {
    match k
    case SecretKey => 1 case AdminPassword => 2 case Postgres => 3 case FieldsEncryption => 4 case SigningKey => 5
    case SigningScripts => 6 case ContainerToken => 7 case ObjectStorage => 8 case Sso => 9 case LdapConfig => 10 case LdapCa => 11
  }

  ghost predicate InOrder(es: seq<Entry>, low: nat, high: nat) {
    && (forall i :: 0 <= i < |es| ==> low < Place(es[i].kind) <= high)
    && (forall i, j :: 0 <= i < j < |es| ==> Place(es[i].kind) < Place(es[j].kind))
  }

  lemma InOrderConcat(a: seq<Entry>, b: seq<Entry>, low: nat, mid: nat, high: nat)
    requires low <= mid <= high && InOrder(a, low, mid) && InOrder(b, mid, high)
    ensures InOrder(a + b, low, high)
  {
  }

  lemma SevenInOrder(a: seq<Entry>, b: seq<Entry>, c: seq<Entry>, d: seq<Entry>, e: seq<Entry>, f: seq<Entry>, g: seq<Entry>)
    requires InOrder(a, 0, 4) && InOrder(b, 4, 6) && InOrder(c, 6, 7) && InOrder(d, 7, 8) && InOrder(e, 8, 9) && InOrder(f, 9, 10) && InOrder(g, 10, 11)
    ensures InOrder(a + b + c + d + e + f + g, 0, 11)
  {
    InOrderConcat(a, b, 0, 4, 6);
    InOrderConcat(a + b, c, 0, 6, 7);
    InOrderConcat(a + b + c, d, 0, 7, 8);
    InOrderConcat(a + b + c + d, e, 0, 8, 9);
    InOrderConcat(a + b + c + d + e, f, 0, 9, 10);
    InOrderConcat(a + b + c + d + e + f, g, 0, 10, 11);
  }

  lemma SectionsInOrder(n: Names)
    ensures InOrder(AlwaysEntries(n), 0, 4) && InOrder(SigningEntries(n), 4, 6) && InOrder([Entry(ContainerToken, n.containerToken)], 6, 7)
    ensures InOrder(Optional(Sso, n.sso), 8, 9) && InOrder(Optional(LdapConfig, n.ldapConfig), 9, 10) && InOrder(Optional(LdapCa, n.ldapCa), 10, 11)
  {
  }

  lemma InOrderIsDistinct(es: seq<Entry>)
    requires InOrder(es, 0, 11)
    ensures KindsDistinct(es)
  {
  }

  predicate AtMostOneStorage(n: Names) {
    (n.s3 == "" && n.azure == "") || (n.s3 == "" && n.gcs == "") || (n.azure == "" && n.gcs == "")
  }

  lemma OneStorageInOrder(n: Names)
    requires AtMostOneStorage(n)
    ensures InOrder(StorageEntries(n), 7, 8)
  {
  }

  /** With one object storage at most, which the storage precheck guarantees,
      no backup file is written twice. */
  lemma OneStorageKindsDistinct(n: Names)
    requires AtMostOneStorage(n)
    ensures KindsDistinct(Entries(n))
  {
    SectionsInOrder(n);
    OneStorageInOrder(n);
    SevenInOrder(AlwaysEntries(n), SigningEntries(n), [Entry(ContainerToken, n.containerToken)], StorageEntries(n),
                 Optional(Sso, n.sso), Optional(LdapConfig, n.ldapConfig), Optional(LdapCa, n.ldapCa));
    InOrderIsDistinct(Entries(n));
  }
}
