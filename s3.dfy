/** The S3 adapter: a handle that is connected while it holds a client, and
    an upload that checks its preconditions in order, merges the per-call
    options into the put request, writes the object, reads its metadata back
    and reports the uploaded file. The filesystem and the AWS client are not
    executed: their outcomes arrive in an Environment record, and the calls
    the upload would make are returned as a trace. */
module S3 {
  import opened Shared

  /** The AWS client a handle holds, named by the credentials it was built from. */
  datatype S3Client =
    | StaticCredentials(accessKey: string, secretKey: string, region: string)
    | SharedConfig

  /** The fields of a SimpleStorageService other than its client. Nothing in
      the adapter writes them after construction. */
  datatype Settings = Settings(
    provider: string,
    defaultBucket: string,
    region: string,
    accessKey: string,
    secretKey: string,
    defaultTimeout: int,
    enableDebug: bool,
    publicRead: bool,
    useAsync: bool)

  /** The canned ACL of a put request; AclUnset is the nil of the Go field. */
  datatype ObjectCannedAcl = AclUnset | AclPublicRead | AclPrivate

  /** A value of the options map, by its dynamic Go type. */
  datatype OptionValue =
    | Str(s: string)
    | StringMap(m: map<string, string>)
    | OtherValue

  /** The put request. Body names the opened file by its path. */
  datatype PutObjectInput = PutObjectInput(
    bucket: string,
    key: string,
    body: string,
    acl: ObjectCannedAcl,
    contentType: Option<string>,
    metadata: Option<map<string, string>>)

  datatype HeadObjectInput = HeadObjectInput(bucket: string, key: string)

  /** What os.Stat reports: only a not-exist error stops the upload. */
  datatype StatOutcome = Exists | NotExist | OtherStatError

  /** The outcomes of the calls an upload makes outside the model. */
  datatype Environment = Environment(
    stat: StatOutcome,
    openOk: bool,
    putOk: bool,
    head: Option<ProviderObject>)

  /** One call an upload makes to the filesystem or to the S3 client. */
  datatype Call =
    | Stat(statPath: string)
    | Open(openPath: string)
    | PutObject(put: PutObjectInput)
    | HeadObject(head: HeadObjectInput)
    | Close(closePath: string)

  /** The put request before any option is applied: the handle's bucket, the
      caller's key and file, and public-read exactly when the handle says so. */
  function BaseParams(bucket: string, key: string, body: string, publicRead: bool): (p: PutObjectInput)
    ensures p.bucket == bucket && p.key == key && p.body == body
    ensures p.contentType == None && p.metadata == None
    ensures p.acl != AclPrivate && (p.acl == AclPublicRead <==> publicRead)
  {
    PutObjectInput(bucket, key, body, if publicRead then AclPublicRead else AclUnset, None, None)
  }

  /** The ACL after an OptACL entry with value v: only the two known ACL
      strings change it. */
  function AclOption(acl: ObjectCannedAcl, v: OptionValue): ObjectCannedAcl
  {
    match v
    case Str(s) =>
      if s == ACLPublicRead then AclPublicRead
      else if s == ACLPrivate then AclPrivate
      else acl
    case _ => acl
  }

  /** One iteration of the options loop: the switch on the key. */
  function ApplyOption(p: PutObjectInput, k: string, v: OptionValue): PutObjectInput
  {
    if k == OptACL then p.(acl := AclOption(p.acl, v))
    else if k == OptContentType then (if v.Str? then p.(contentType := Some(v.s)) else p)
    else if k == OptMetadata then (if v.StringMap? then p.(metadata := Some(v.m)) else p)
    else p
  }

  /** The options merge as a whole, stated key by key: each request field is
      decided by the one entry for its own key, if that entry has the right
      type, and is otherwise left as it was. */
  function ResolveParams(p: PutObjectInput, options: map<string, OptionValue>): (q: PutObjectInput)
    ensures q.bucket == p.bucket && q.key == p.key && q.body == p.body
  {
    p.(acl := if OptACL in options then AclOption(p.acl, options[OptACL]) else p.acl,
       contentType :=
         if OptContentType in options && options[OptContentType].Str?
         then Some(options[OptContentType].s) else p.contentType,
       metadata :=
         if OptMetadata in options && options[OptMetadata].StringMap?
         then Some(options[OptMetadata].m) else p.metadata)
  }

  /** The entries of options whose keys are not pending. */
  function Processed(options: map<string, OptionValue>, pending: set<string>): (m: map<string, OptionValue>)
    ensures m.Keys == options.Keys - pending
    ensures forall k :: k in m ==> m[k] == options[k]
  {
    map k | k in options && k !in pending :: options[k]
  }

  /** Applying one more entry, for a key not seen yet, is what the merge of
      the larger map gives: the loop may visit the keys in any order. */
  lemma ResolveAddOption(p: PutObjectInput, m: map<string, OptionValue>, k: string, v: OptionValue)
    requires k !in m
    ensures ResolveParams(p, m[k := v]) == ApplyOption(ResolveParams(p, m), k, v)
  {
  }

  /** True when an entry can change the request: a recognised key with a
      value of the type that key accepts. */
  predicate Effective(k: string, v: OptionValue)
  {
    || (k == OptACL && (v == Str(ACLPublicRead) || v == Str(ACLPrivate)))
    || (k == OptContentType && v.Str?)
    || (k == OptMetadata && v.StringMap?)
  }

  /** The merge is permissive: an unknown key, or a value of the wrong type or
      an unknown ACL string, is dropped without error. */
  lemma IneffectiveEntryIgnored(p: PutObjectInput, m: map<string, OptionValue>, k: string, v: OptionValue)
    requires !Effective(k, v)
    ensures ResolveParams(p, m[k := v]) == ResolveParams(p, m - {k})
  {
  }

  /** The three-valued ACL of the put request: private exactly when the
      options ask for it; public-read when the options ask for it or the
      handle defaults to it and the options do not ask for private; unset
      only when neither the handle nor the options set it. */
  lemma AclResolution(bucket: string, key: string, body: string, publicRead: bool, options: map<string, OptionValue>)
    ensures var acl := ResolveParams(BaseParams(bucket, key, body, publicRead), options).acl;
      && (acl == AclPrivate <==> OptACL in options && options[OptACL] == Str(ACLPrivate))
      && (acl == AclPublicRead <==>
            (OptACL in options && options[OptACL] == Str(ACLPublicRead))
            || (publicRead && !(OptACL in options && options[OptACL] == Str(ACLPrivate))))
      && (acl == AclUnset <==> !publicRead && !(OptACL in options && Effective(OptACL, options[OptACL])))
  {
  }

  /** Content type and metadata are set only by a value of the right type
      under their own key, and then to exactly that value. */
  lemma ContentTypeAndMetadataResolution(p: PutObjectInput, options: map<string, OptionValue>)
    requires p.contentType == None && p.metadata == None
    ensures var q := ResolveParams(p, options);
      && (q.contentType.Some? <==> OptContentType in options && options[OptContentType].Str?)
      && (q.contentType.Some? ==> options[OptContentType] == Str(q.contentType.value))
      && (q.metadata.Some? <==> OptMetadata in options && options[OptMetadata].StringMap?)
      && (q.metadata.Some? ==> options[OptMetadata] == StringMap(q.metadata.value))
  {
  }

  /** The preview URL of an uploaded object. */
  function Preview(bucket: string, region: string, key: string): string
  {
    Sprintf(URLSimpleStorageService, [bucket, region, key])
  }

  /** The template takes bucket, region and key in that order. */
  lemma PreviewFormat(bucket: string, region: string, key: string)
    ensures Preview(bucket, region, key)
         == "https://" + bucket + ".s3." + region + ".amazonaws.com/" + key
  {
  }

  /** Within one bucket and region, the preview URL determines the key. */
  lemma PreviewDeterminesKey(bucket: string, region: string, key1: string, key2: string)
    requires Preview(bucket, region, key1) == Preview(bucket, region, key2)
    ensures key1 == key2
  {
    PreviewFormat(bucket, region, key1);
    PreviewFormat(bucket, region, key2);
    var prefix := "https://" + bucket + ".s3." + region + ".amazonaws.com/";
    assert key1 == (prefix + key1)[|prefix|..];
    assert key2 == (prefix + key2)[|prefix|..];
  }

  /** The S3 bridge handle. It is connected exactly while it holds a client. */
  class SimpleStorageService {
    const settings: Settings
    var client: Option<S3Client>

    /** The handle the factory builds: always holding the client it created. */
    constructor (settings: Settings, client: S3Client)
      ensures this.settings == settings && this.client == Some(client)
    {
      this.settings := settings;
      this.client := Some(client);
    }

    /** Connected exactly while the handle holds a client. */
    function IsConnected(): (connected: bool)
      reads this
      ensures connected <==> client.Some?
    {
      client.Some?
    }

    /** Drops the client; never fails, so calling it again changes nothing. */
    method Disconnect() returns (err: Option<BifrostError>)
      modifies this
      ensures err == None
      ensures !IsConnected() && client == None
    {
      client := None;
      err := None;
    }

    /** The handle's settings in the shape of a configuration record. The
        record has no place for the handle's public-read default, nor for the
        credentials file, project or JWT the handle does not keep. */
    function Config(): (c: BridgeConfig)
      ensures c.provider == settings.provider
      ensures c.defaultBucket == settings.defaultBucket && c.region == settings.region
      ensures c.accessKey == settings.accessKey && c.secretKey == settings.secretKey
      ensures c.defaultTimeout == settings.defaultTimeout
      ensures c.enableDebug == settings.enableDebug && c.useAsync == settings.useAsync
      ensures !c.publicRead && c.credentialsFile == "" && c.project == "" && c.pinataJWT == ""
    {
      BridgeConfig(
        provider := settings.provider,
        defaultBucket := settings.defaultBucket,
        region := settings.region,
        accessKey := settings.accessKey,
        secretKey := settings.secretKey,
        credentialsFile := "",
        project := "",
        pinataJWT := "",
        defaultTimeout := settings.defaultTimeout,
        enableDebug := settings.enableDebug,
        publicRead := false,
        useAsync := settings.useAsync)
    }

    /** Folder upload is a stub: no files and no error, whatever it is given. */
    function UploadFolder(path: string, options: map<string, OptionValue>): (r: (seq<UploadedFile>, Option<BifrostError>))
      ensures r.0 == [] && r.1 == None
    {
      ([], None)
    }

    /** Uploads the file at path under the key filename into the handle's
        default bucket. The first failing precondition decides the error:
        no client (ClientError), no such file (BadRequest), the file does not
        open (FileOperationFailed); then a failed put or a failed metadata
        read gives FileOperationFailed. The file, once open, is closed on
        every way out. */
    method UploadFile(path: string, filename: string, options: map<string, OptionValue>, env: Environment)
      returns (res: Result<UploadedFile, BifrostError>, calls: seq<Call>)
      ensures !IsConnected() ==>
        res == Failure(BifrostError(NoActiveClient, ErrClientError)) && calls == []
      ensures IsConnected() && env.stat == NotExist ==>
        res == Failure(BifrostError(FileDoesNotExist(path), ErrBadRequest)) && calls == [Stat(path)]
      ensures IsConnected() && env.stat != NotExist && !env.openOk ==>
        res == Failure(BifrostError(OpenFailed, ErrFileOperationFailed)) && calls == [Stat(path), Open(path)]
      ensures IsConnected() && env.stat != NotExist && env.openOk ==>
        var put := ResolveParams(BaseParams(settings.defaultBucket, filename, path, settings.publicRead), options);
        var head := HeadObjectInput(settings.defaultBucket, filename);
        && (!env.putOk ==>
              res == Failure(BifrostError(PutObjectFailed, ErrFileOperationFailed))
              && calls == [Stat(path), Open(path), PutObject(put), Close(path)])
        && (env.putOk && env.head == None ==>
              res == Failure(BifrostError(HeadObjectFailed, ErrFileOperationFailed))
              && calls == [Stat(path), Open(path), PutObject(put), HeadObject(head), Close(path)])
        && (env.putOk && env.head.Some? ==>
              res == Success(UploadedFile(
                filename, settings.defaultBucket, path,
                Preview(settings.defaultBucket, settings.region, filename),
                env.head.value.contentLength, env.head.value))
              && calls == [Stat(path), Open(path), PutObject(put), HeadObject(head), Close(path)])
    {
      calls := [];
      if !IsConnected() {
        res := Failure(BifrostError(NoActiveClient, ErrClientError));
        return;
      }
      calls := calls + [Stat(path)];
      if env.stat == NotExist {
        res := Failure(BifrostError(FileDoesNotExist(path), ErrBadRequest));
        return;
      }
      calls := calls + [Open(path)];
      if !env.openOk {
        res := Failure(BifrostError(OpenFailed, ErrFileOperationFailed));
        return;
      }

      var params := PutObjectInput(settings.defaultBucket, filename, path, AclUnset, None, None);
      if settings.publicRead {
        params := params.(acl := AclPublicRead);
      }
      ghost var base := params;
      var pending := options.Keys;
      while pending != {}
        invariant pending <= options.Keys
        invariant params == ResolveParams(base, Processed(options, pending))
        decreases pending
      {
        var k :| k in pending;
        ghost var seen := Processed(options, pending);
        ResolveAddOption(base, seen, k, options[k]);
        params := ApplyOption(params, k, options[k]);
        pending := pending - {k};
        assert Processed(options, pending) == seen[k := options[k]];
      }
      assert Processed(options, pending) == options;

      calls := calls + [PutObject(params)];
      if !env.putOk {
        res := Failure(BifrostError(PutObjectFailed, ErrFileOperationFailed));
        calls := calls + [Close(path)];
        return;
      }
      calls := calls + [HeadObject(HeadObjectInput(settings.defaultBucket, filename))];
      match env.head {
        case None =>
          res := Failure(BifrostError(HeadObjectFailed, ErrFileOperationFailed));
        case Some(obj) =>
          res := Success(UploadedFile(
            filename, settings.defaultBucket, path,
            Preview(settings.defaultBucket, settings.region, filename),
            obj.contentLength, obj));
      }
      calls := calls + [Close(path)];
    }
  }
}
