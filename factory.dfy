/** The store factory of factory.go: it turns the configured list of tagged
    store entries into store backends, and builds the descriptor handed to
    Save. */
module Factory {
  import opened Outcomes
  import opened ImageStore

  /** The tag that selects the S3 backend. */
  const S3Kind := "S3StoreConfig"
  /** The tag that selects the local filesystem backend. */
  const LocalKind := "LocalStoreConfig"

  datatype S3StoreConfig = S3StoreConfig(
    bucketName: string, storeRoot: string, region: string,
    namePathRegex: string, namePathMap: string)

  datatype LocalStoreConfig = LocalStoreConfig(
    storeRoot: string, namePathRegex: string, namePathMap: string)

  /** The dynamically typed payload of a store entry: it holds an S3 config,
      a local config, or a value of some other type. */
  datatype Payload =
    | S3Payload(s3: S3StoreConfig)
    | LocalPayload(local: LocalStoreConfig)
    | OtherPayload

  /** One configured store: its kind tag and its payload. */
  datatype StoreEntry = StoreEntry(kind: string, payload: Payload)

  /** The parts of the server configuration that the modelled code reads. */
  datatype Configuration = Configuration(
    stores: seq<StoreEntry>, hashLength: int, maxFileSize: int,
    port: int, userAgent: string)

  /** Why building the stores aborts the process at startup. */
  datatype FactoryError = UnsupportedStore(kind: string) | MissingCredentials

  /** The zero values that a failed type assertion yields. */
  const ZeroS3Config := S3StoreConfig("", "", "", "", "")
  const ZeroLocalConfig := LocalStoreConfig("", "", "")

  /** `config, _ := payload.(S3StoreConfig)`: the ok flag is discarded, so a
      payload of another type becomes the zero config. */
  function AsS3Config(p: Payload): (c: S3StoreConfig) {
    if p.S3Payload? then p.s3 else ZeroS3Config
  }

  /** `config, _ := payload.(LocalStoreConfig)`, likewise. */
  function AsLocalConfig(p: Payload): (c: LocalStoreConfig) {
    if p.LocalPayload? then p.local else ZeroLocalConfig
  }

  /** NewS3ImageStore: the credentials come from the environment and their
      absence is fatal; the client is built for the configured region. */
  function NewS3ImageStore(config: S3StoreConfig, envAuth: Outcome<Auth>): (r: Result<Store, FactoryError>)
    ensures r.Failure? <==> envAuth.Fail?
    ensures r.Failure? ==> r.error == MissingCredentials
    ensures r.Success? ==>
      && r.value.S3?
      && r.value.bucket == config.bucketName && r.value.root == config.storeRoot
      && r.value.region == config.region && r.value.auth == envAuth.value
      && r.value.mapper == NamePathMapper(config.namePathRegex, config.namePathMap)
  {
    if envAuth.Fail? then Failure(MissingCredentials)
    else
      var mapper := NamePathMapper(config.namePathRegex, config.namePathMap);
      Success(S3(config.bucketName, config.storeRoot, config.region, envAuth.value, mapper))
  }

  /** NewLocalImageStore: a local store under the configured root. */
  function NewLocalImageStore(config: LocalStoreConfig): (s: Store)
    ensures s.Local? && s.root == config.storeRoot
    ensures s.mapper == NamePathMapper(config.namePathRegex, config.namePathMap)
  {
    Local(config.storeRoot, NamePathMapper(config.namePathRegex, config.namePathMap))
  }

  /** What one entry contributes to the list of stores, or why startup aborts
      on it: the reference definition for NewImageStores. */
  function StoreFor(e: StoreEntry, envAuth: Outcome<Auth>): (r: Result<Store, FactoryError>)
    ensures r.Success? <==> e.kind == LocalKind || (e.kind == S3Kind && envAuth.Ok?)
    ensures r.Failure? ==>
      r.error == if e.kind == S3Kind then MissingCredentials else UnsupportedStore(e.kind)
    ensures r.Success? ==> (r.value.S3? <==> e.kind == S3Kind)
    ensures r.Success? && r.value.S3? ==> r.value.auth == envAuth.value
  {
    if e.kind == S3Kind then NewS3ImageStore(AsS3Config(e.payload), envAuth)
    else if e.kind == LocalKind then Success(NewLocalImageStore(AsLocalConfig(e.payload)))
    else Failure(UnsupportedStore(e.kind))
  }

  /** NewImageStores: one store per entry, in the order of the entries; the
      first entry that cannot be built aborts the whole construction. */
  method NewImageStores(config: Configuration, envAuth: Outcome<Auth>)
    returns (r: Result<seq<Store>, FactoryError>)
    ensures r.Success? <==>
      forall i :: 0 <= i < |config.stores| ==> StoreFor(config.stores[i], envAuth).Success?
    ensures r.Success? ==>
      && |r.value| == |config.stores|
      && forall i :: 0 <= i < |r.value| ==> r.value[i] == StoreFor(config.stores[i], envAuth).value
    ensures r.Failure? ==>
      exists k :: 0 <= k < |config.stores|
        && (forall i :: 0 <= i < k ==> StoreFor(config.stores[i], envAuth).Success?)
        && StoreFor(config.stores[k], envAuth) == Failure(r.error)
  {
    var stores: seq<Store> := [];
    var i := 0;
    while i < |config.stores|
      invariant 0 <= i <= |config.stores|
      invariant |stores| == i
      invariant forall j :: 0 <= j < i ==>
        StoreFor(config.stores[j], envAuth).Success? && stores[j] == StoreFor(config.stores[j], envAuth).value
    {
      var entry := config.stores[i];
      if entry.kind == S3Kind {
        var store := NewS3ImageStore(AsS3Config(entry.payload), envAuth);
        if store.Failure? {
          assert StoreFor(config.stores[i], envAuth) == Failure(store.error);
          return Failure(store.error);
        }
        stores := stores + [store.value];
      } else if entry.kind == LocalKind {
        var store := NewLocalImageStore(AsLocalConfig(entry.payload));
        stores := stores + [store];
      } else {
        assert StoreFor(config.stores[i], envAuth) == Failure(UnsupportedStore(entry.kind));
        return Failure(UnsupportedStore(entry.kind));
      }
      i := i + 1;
    }
    return Success(stores);
  }

  /** NewStoreObject: the descriptor carries exactly the given name, mime type
      and image type, and no retrieval URL yet. */
  function NewStoreObject(name: string, mime: string, imgType: string): (o: StoreObject)
    ensures o.name == name && o.mimeType == mime && o.imageType == imgType
    ensures o.url == ""
  {
    StoreObject(name, mime, imgType, "")
  }

  /** Both backends take their mapper from the same entry's pattern and
      template; the local one uses the root, the S3 one the bucket, root and
      region of the same config. */
  lemma StoreWiring(e: StoreEntry, envAuth: Outcome<Auth>)
    requires StoreFor(e, envAuth).Success?
    ensures var s := StoreFor(e, envAuth).value;
      match s
      case Local(root, mapper) =>
        var c := AsLocalConfig(e.payload);
        root == c.storeRoot && mapper == NamePathMapper(c.namePathRegex, c.namePathMap)
      case S3(bucket, root, region, _, mapper) =>
        var c := AsS3Config(e.payload);
        && bucket == c.bucketName && root == c.storeRoot && region == c.region
        && mapper == NamePathMapper(c.namePathRegex, c.namePathMap)
  {
  }

  /** A payload whose type does not match its tag does not fail: it builds a
      store from the zero config. */
  lemma MismatchedPayloadYieldsZeroStore(e: StoreEntry, envAuth: Outcome<Auth>)
    requires (e.kind == S3Kind && !e.payload.S3Payload?) || (e.kind == LocalKind && !e.payload.LocalPayload?)
    requires e.kind == S3Kind ==> envAuth.Ok?
    ensures e.kind == S3Kind ==>
      StoreFor(e, envAuth) == Success(S3("", "", "", envAuth.value, NamePathMapper("", "")))
    ensures e.kind == LocalKind ==>
      StoreFor(e, envAuth) == Success(Local("", NamePathMapper("", "")))
  {
  }

  /** The credentials matter only to S3 entries: a configuration of local
      stores builds with or without them. */
  lemma LocalStoresNeedNoCredentials(config: Configuration, envAuth: Outcome<Auth>)
    requires forall i :: 0 <= i < |config.stores| ==> config.stores[i].kind == LocalKind
    ensures forall i :: 0 <= i < |config.stores| ==> StoreFor(config.stores[i], envAuth).Success?
    ensures forall i :: 0 <= i < |config.stores| ==>
      StoreFor(config.stores[i], envAuth) == StoreFor(config.stores[i], Fail)
  {
  }
}
