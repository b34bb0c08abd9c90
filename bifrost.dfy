/** The bridge factory: validates a configuration, resolves the provider
    against the registry and dispatches to one of three adapter constructors.
    The registry is a parameter (provider identifier to provider name), and
    the outcomes of the vendor credential loaders arrive in a Loaders record. */
module Bifrost {
  import opened Shared
  import S3

  /** The Google Cloud Storage client, named by how it authenticated. */
  datatype GcsClient = WithCredentialsFile(path: string) | AmbientCredentials

  datatype GoogleCloudStorage = GoogleCloudStorage(
    provider: string,
    defaultBucket: string,
    credentialsFile: string,
    project: string,
    defaultTimeout: int,
    client: GcsClient,
    enableDebug: bool,
    publicRead: bool,
    useAsync: bool)

  datatype PinataIpfsStorage = PinataIpfsStorage(
    pinataJWT: string,
    provider: string,
    defaultBucket: string,
    credentialsFile: string,
    project: string,
    defaultTimeout: int,
    enableDebug: bool,
    publicRead: bool,
    useAsync: bool)

  /** The handle the factory returns, bound to exactly one backend. An S3
      handle is the settings and client from which a SimpleStorageService
      object is made. */
  datatype RainbowBridge =
    | SimpleStorage(settings: S3.Settings, client: S3.S3Client)
    | GoogleCloud(gcs: GoogleCloudStorage)
    | PinataIpfs(pinata: PinataIpfsStorage)

  /** Whether each vendor credential loader succeeds: the S3 config loader
      with static keys or with the shared configuration, and the GCS client
      constructor with a credentials file or with ambient credentials. */
  datatype Loaders = Loaders(s3Static: bool, s3Shared: bool, gcsWithFile: bool, gcsAmbient: bool)

  /** strings.ToLower on one character, for the ASCII letters. */
  function LowerChar(c: char): (l: char)
  {
    if 'A' <= c <= 'Z' then (c as int - 'A' as int + 'a' as int) as char else c
  }

  function ToLower(s: string): (r: string)
    ensures |r| == |s|
    ensures forall i :: 0 <= i < |s| ==> r[i] == LowerChar(s[i])
  {
    if s == [] then [] else [LowerChar(s[0])] + ToLower(s[1..])
  }

  /** Lower-casing twice is lower-casing once. */
  lemma ToLowerIdempotent(s: string)
    ensures ToLower(ToLower(s)) == ToLower(s)
  {
  }

  /** The registry's name for a provider, looked up case-insensitively; a
      missing key reads as the empty string, as indexing a Go map does. */
  function ProviderName(providers: map<string, string>, provider: string): string
  {
    var k := ToLower(provider);
    if k in providers then providers[k] else ""
  }

  /** The checks the factory makes before dispatching. */
  predicate PassesValidation(bc: BridgeConfig, providers: map<string, string>)
  {
    bc.provider != "" && ToLower(bc.provider) in providers
  }

  /** The provider strings the dispatch recognises, compared as written. */
  predicate Dispatchable(provider: string)
  {
    provider == "s3" || provider == "gcs" || provider == "pinata"
  }

  /** The S3 constructor uses static credentials exactly when both keys are given. */
  predicate UsesStaticCredentials(g: BridgeConfig)
  {
    g.accessKey != "" && g.secretKey != ""
  }

  /** Reference statement of when an adapter refuses its credentials. */
  predicate AuthenticationFails(g: BridgeConfig, loaders: Loaders)
  {
    if g.provider == "s3" then
      (if UsesStaticCredentials(g) then !loaders.s3Static else !loaders.s3Shared)
    else if g.provider == "gcs" then
      (if g.credentialsFile != "" then !loaders.gcsWithFile else !loaders.gcsAmbient)
    else g.provider == "pinata" && g.pinataJWT == ""
  }

  /** The Pinata adapter needs a JWT and builds no client. */
  function NewPinataIpfs(g: BridgeConfig, providers: map<string, string>): (r: Result<RainbowBridge, BifrostError>)
    ensures g.pinataJWT == "" ==> r == Failure(BifrostError(JwtRequired, ErrUnauthorized))
    ensures g.pinataJWT != "" ==> r.Success? && r.value.PinataIpfs?
    ensures r.Success? ==> r.value.pinata == PinataIpfsStorage(
      g.pinataJWT, ProviderName(providers, g.provider), g.defaultBucket, g.credentialsFile,
      g.project, g.defaultTimeout, g.enableDebug, g.publicRead, g.useAsync)
  {
    if g.pinataJWT == "" then
      Failure(BifrostError(JwtRequired, ErrUnauthorized))
    else
      Success(PinataIpfs(PinataIpfsStorage(
        pinataJWT := g.pinataJWT,
        provider := ProviderName(providers, g.provider),
        defaultBucket := g.defaultBucket,
        credentialsFile := g.credentialsFile,
        project := g.project,
        defaultTimeout := g.defaultTimeout,
        enableDebug := g.enableDebug,
        publicRead := g.publicRead,
        useAsync := g.useAsync)))
  }

  /** The GCS adapter authenticates with the credentials file when one is
      named and with ambient credentials otherwise; a refusal is Unauthorized. */
  function NewGoogleCloudStorage(g: BridgeConfig, providers: map<string, string>, loaders: Loaders)
    : (r: Result<RainbowBridge, BifrostError>)
    ensures r.Failure? <==> (if g.credentialsFile != "" then !loaders.gcsWithFile else !loaders.gcsAmbient)
    ensures r.Failure? ==> r.error == BifrostError(CredentialsRejected, ErrUnauthorized)
    ensures r.Success? ==> r.value.GoogleCloud?
    ensures r.Success? ==>
      r.value.gcs.client == (if g.credentialsFile != "" then WithCredentialsFile(g.credentialsFile) else AmbientCredentials)
    ensures r.Success? ==>
      r.value.gcs == GoogleCloudStorage(
        ProviderName(providers, g.provider), g.defaultBucket, g.credentialsFile, g.project,
        g.defaultTimeout, r.value.gcs.client, g.enableDebug, g.publicRead, g.useAsync)
  {
    var client :=
      if g.credentialsFile != "" then
        (if loaders.gcsWithFile then Some(WithCredentialsFile(g.credentialsFile)) else None)
      else
        (if loaders.gcsAmbient then Some(AmbientCredentials) else None);
    match client
    case None => Failure(BifrostError(CredentialsRejected, ErrUnauthorized))
    case Some(c) =>
      Success(GoogleCloud(GoogleCloudStorage(
        provider := ProviderName(providers, g.provider),
        defaultBucket := g.defaultBucket,
        credentialsFile := g.credentialsFile,
        project := g.project,
        defaultTimeout := g.defaultTimeout,
        client := c,
        enableDebug := g.enableDebug,
        publicRead := g.publicRead,
        useAsync := g.useAsync)))
  }

  /** The S3 adapter authenticates with static keys when both are given and
      with the shared configuration otherwise; a refusal is Unauthorized. The
      handle keeps only provider, bucket, region, public-read and the two keys:
      timeout, debug and async are left at their zero values. */
  function NewSimpleStorageService(g: BridgeConfig, providers: map<string, string>, loaders: Loaders)
    : (r: Result<RainbowBridge, BifrostError>)
    ensures r.Failure? <==> (if UsesStaticCredentials(g) then !loaders.s3Static else !loaders.s3Shared)
    ensures r.Failure? ==> r.error == BifrostError(CredentialsRejected, ErrUnauthorized)
    ensures r.Success? ==> r.value.SimpleStorage?
    ensures r.Success? ==>
      r.value.client == (if UsesStaticCredentials(g)
                         then S3.StaticCredentials(g.accessKey, g.secretKey, g.region)
                         else S3.SharedConfig)
    ensures r.Success? ==>
      r.value.settings == S3.Settings(
        ProviderName(providers, g.provider), g.defaultBucket, g.region, g.accessKey, g.secretKey,
        0, false, g.publicRead, false)
  {
    var client :=
      if g.accessKey != "" && g.secretKey != "" then
        (if loaders.s3Static then Some(S3.StaticCredentials(g.accessKey, g.secretKey, g.region)) else None)
      else
        (if loaders.s3Shared then Some(S3.SharedConfig) else None);
    match client
    case None => Failure(BifrostError(CredentialsRejected, ErrUnauthorized))
    case Some(c) =>
      Success(SimpleStorage(S3.Settings(
        provider := ProviderName(providers, g.provider),
        defaultBucket := g.defaultBucket,
        region := g.region,
        accessKey := g.accessKey,
        secretKey := g.secretKey,
        defaultTimeout := 0,
        enableDebug := false,
        publicRead := g.publicRead,
        useAsync := false), c))
  }

  /** The factory. A nil configuration, an empty provider and a provider whose
      lower-cased form the registry does not hold are refused as BadRequest,
      in that order. An empty bucket is not checked. The dispatch then
      compares the provider as written. */
  function NewRainbowBridge(bc: Option<BridgeConfig>, providers: map<string, string>, loaders: Loaders)
    : (r: Result<RainbowBridge, BifrostError>)
    ensures bc == None ==> r == Failure(BifrostError(ConfigIsNil, ErrBadRequest))
    ensures bc.Some? && bc.value.provider == "" ==>
      r == Failure(BifrostError(NoProviderSpecified, ErrBadRequest))
    ensures bc.Some? && bc.value.provider != "" && ToLower(bc.value.provider) !in providers ==>
      r == Failure(BifrostError(InvalidProvider(bc.value.provider), ErrBadRequest))
    ensures bc.Some? && PassesValidation(bc.value, providers) && !Dispatchable(bc.value.provider) ==>
      r == Failure(BifrostError(InvalidProvider(bc.value.provider), ErrBadRequest))
  {
    if bc.None? then Failure(BifrostError(ConfigIsNil, ErrBadRequest))
    else
      var g := bc.value;
      if g.provider == "" then Failure(BifrostError(NoProviderSpecified, ErrBadRequest))
      else if ToLower(g.provider) !in providers then Failure(BifrostError(InvalidProvider(g.provider), ErrBadRequest))
      else if g.provider == "s3" then NewSimpleStorageService(g, providers, loaders)
      else if g.provider == "gcs" then NewGoogleCloudStorage(g, providers, loaders)
      else if g.provider == "pinata" then NewPinataIpfs(g, providers)
      else Failure(BifrostError(InvalidProvider(g.provider), ErrBadRequest))
  }

  /** Every outcome of the factory, classified: BadRequest exactly when
      validation or the exact-match dispatch refuses the configuration,
      Unauthorized exactly when a dispatched adapter refuses its credentials,
      success otherwise; no other kind occurs. */
  lemma FactoryOutcomes(bc: Option<BridgeConfig>, providers: map<string, string>, loaders: Loaders)
    ensures var r := NewRainbowBridge(bc, providers, loaders);
      && (r.Failure? ==> r.error.errorCode == ErrBadRequest || r.error.errorCode == ErrUnauthorized)
      && (r.Failure? && r.error.errorCode == ErrBadRequest <==>
            bc.None? || !PassesValidation(bc.value, providers) || !Dispatchable(bc.value.provider))
      && (r.Failure? && r.error.errorCode == ErrUnauthorized <==>
            bc.Some? && PassesValidation(bc.value, providers) && Dispatchable(bc.value.provider)
            && AuthenticationFails(bc.value, loaders))
  {
  }

  /** A successful factory call gives the adapter named by the provider as
      written, carrying the registry's name for it. */
  lemma SuccessMatchesProvider(bc: Option<BridgeConfig>, providers: map<string, string>, loaders: Loaders)
    requires NewRainbowBridge(bc, providers, loaders).Success?
    ensures var h := NewRainbowBridge(bc, providers, loaders).value;
      && bc.Some? && PassesValidation(bc.value, providers)
      && bc.value.provider in providers
      && (h.SimpleStorage? <==> bc.value.provider == "s3")
      && (h.GoogleCloud? <==> bc.value.provider == "gcs")
      && (h.PinataIpfs? <==> bc.value.provider == "pinata")
      && (match h
          case SimpleStorage(s, _) => s.provider == providers[bc.value.provider]
          case GoogleCloud(gcs) => gcs.provider == providers[bc.value.provider]
          case PinataIpfs(p) => p.provider == providers[bc.value.provider])
  {
    var p := bc.value.provider;
    assert ToLower(p) == p by {
      assert p == "s3" || p == "gcs" || p == "pinata";
    }
  }

  /** A provider that passes the case-insensitive registry check but is not
      literally one of the dispatched names is refused as BadRequest. */
  lemma CaseMismatchRejected(g: BridgeConfig, providers: map<string, string>, loaders: Loaders)
    requires "s3" in providers
    requires g.provider == "S3"
    ensures NewRainbowBridge(Some(g), providers, loaders)
         == Failure(BifrostError(InvalidProvider("S3"), ErrBadRequest))
  {
    assert ToLower(g.provider) == "s3";
  }

  /** The bucket never decides the outcome: changing only the default bucket
      gives the same error, or success in both cases. */
  lemma BucketNeverDecides(g: BridgeConfig, bucket: string, providers: map<string, string>, loaders: Loaders)
    ensures var r1 := NewRainbowBridge(Some(g), providers, loaders);
      var r2 := NewRainbowBridge(Some(g.(defaultBucket := bucket)), providers, loaders);
      && (r1.Success? <==> r2.Success?)
      && (r1.Failure? ==> r1 == r2)
  {
  }

  /** The Pinata adapter consults no credential loader. */
  lemma PinataIgnoresLoaders(g: BridgeConfig, providers: map<string, string>, loaders1: Loaders, loaders2: Loaders)
    requires g.provider == "pinata"
    ensures NewRainbowBridge(Some(g), providers, loaders1) == NewRainbowBridge(Some(g), providers, loaders2)
  {
  }

  /** What Config reports for a handle the factory built from g: the
      provider's registry name instead of g's provider, g's bucket, region and
      keys, and zero values for the timeout, the debug, public-read and async
      flags and the fields an S3 handle does not keep. */
  lemma S3ConfigReadback(g: BridgeConfig, providers: map<string, string>, loaders: Loaders, s: S3.SimpleStorageService)
    requires NewRainbowBridge(Some(g), providers, loaders).Success?
    requires NewRainbowBridge(Some(g), providers, loaders).value.SimpleStorage?
    requires s.settings == NewRainbowBridge(Some(g), providers, loaders).value.settings
    ensures "s3" in providers && s.Config() == BridgeConfig(
      providers["s3"], g.defaultBucket, g.region, g.accessKey, g.secretKey,
      "", "", "", 0, false, false, false)
  {
    SuccessMatchesProvider(Some(g), providers, loaders);
  }

  /** The preview URL of the end-to-end scenario, spelled out. */
  lemma ScenarioPreview()
    ensures S3.Preview("assets", "us-east-1", "photo.png")
         == "https://assets.s3.us-east-1.amazonaws.com/photo.png"
  {
    S3.PreviewFormat("assets", "us-east-1", "photo.png");
    assert "https://" + "assets" == "https://assets";
    assert "https://assets" + ".s3." == "https://assets.s3.";
    assert "https://assets.s3." + "us-east-1" == "https://assets.s3.us-east-1";
    assert "https://assets.s3.us-east-1" + ".amazonaws.com/" == "https://assets.s3.us-east-1.amazonaws.com/";
  }

  /** From configuration to uploaded file: an S3 configuration with static
      keys gives a connected handle, and an upload the backend accepts with a
      reported size of 1024 bytes yields the expected record and preview. */
  method EndToEndUpload(providers: map<string, string>, loaders: Loaders)
    returns (res: Result<UploadedFile, BifrostError>)
    requires "s3" in providers && loaders.s3Static
    ensures res == Success(UploadedFile(
      "photo.png", "assets", "/tmp/photo.png",
      "https://assets.s3.us-east-1.amazonaws.com/photo.png", 1024, HeadObjectOutput(1024)))
  {
    var config := BridgeConfig(
      provider := "s3", defaultBucket := "assets", region := "us-east-1",
      accessKey := "A", secretKey := "B", credentialsFile := "", project := "",
      pinataJWT := "", defaultTimeout := 0, enableDebug := false, publicRead := false,
      useAsync := false);
    assert ToLower("s3") == "s3";
    var bridge := NewRainbowBridge(Some(config), providers, loaders);
    assert bridge.Success? && bridge.value.SimpleStorage?;
    var handle := new S3.SimpleStorageService(bridge.value.settings, bridge.value.client);
    var env := S3.Environment(S3.Exists, true, true, Some(HeadObjectOutput(1024)));
    assert handle.IsConnected();
    assert handle.settings.defaultBucket == "assets" && handle.settings.region == "us-east-1";
    var calls;
    res, calls := handle.UploadFile("/tmp/photo.png", "photo.png", map[], env);
    assert res.Success?;
    ScenarioPreview();
  }

  /** After Disconnect, an upload on the handle is refused as ClientError and
      touches neither the filesystem nor the client; a second Disconnect also
      succeeds. */
  method UploadAfterDisconnect(s: S3.SimpleStorageService, path: string, filename: string,
                               options: map<string, S3.OptionValue>, env: S3.Environment)
    returns (res: Result<UploadedFile, BifrostError>, calls: seq<S3.Call>, again: Option<BifrostError>)
    modifies s
    ensures res == Failure(BifrostError(NoActiveClient, ErrClientError)) && calls == []
    ensures again == None
    ensures !s.IsConnected()
  {
    var err := s.Disconnect();
    res, calls := s.UploadFile(path, filename, options, env);
    again := s.Disconnect();
  }
}
