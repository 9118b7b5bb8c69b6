/**
 * The service configuration: the records of internal/config, the host and
 * port fallbacks NewConfig applies after unmarshalling, and the validity
 * predicate that the struct tags give go-playground's validator.
 */
module Config {
  import opened Base

  const DefaultHost: string := "localhost"
  const DefaultPort: int := 8080

  datatype ServerConfig = ServerConfig(host: string, port: int)

  datatype CacheConfig = CacheConfig(address: string, password: string, db: int)

  datatype MinioConfig = MinioConfig(
    endpoint: string, accessKey: string, secretKey: string, bucketName: string)

  /** `minioConfig` is a pointer in the source: None when the section is absent. */
  datatype LoaderConfig = LoaderConfig(
    minioConfig: Option<MinioConfig>, moduleLoader: string, moduleDirectory: string)

  datatype Config = Config(server: ServerConfig, cache: CacheConfig, loader: LoaderConfig)

  /** Tags of MinioConfig: every field is `required`. */
  predicate ValidMinio(m: MinioConfig) {
    m.endpoint != "" && m.accessKey != "" && m.secretKey != "" && m.bucketName != ""
  }

  /**
   * What validator.Struct accepts: `required` address, `gte=0` db,
   * `required` module_loader, and `omitempty,dive` on the MinIO section,
   * so its fields are checked only when the section is present. Host, port,
   * password and module directory are `omitempty` and constrain nothing.
   */
  predicate ValidConfig(c: Config) {
    && c.cache.address != ""
    && c.cache.db >= 0
    && c.loader.moduleLoader != ""
    && (c.loader.minioConfig.Some? ==> ValidMinio(c.loader.minioConfig.value))
  }

  /**
   * The validation the loader needs: besides the tags, the "objectstore"
   * kind must come with a MinIO section, because NewModuleLoader
   * dereferences it. The tags alone do not demand it.
   */
  predicate ValidConfigIntended(c: Config) {
    ValidConfig(c) && (c.loader.moduleLoader == "objectstore" ==> c.loader.minioConfig.Some?)
  }

  /** The entry `tag` adds to the error list when its check fails. */
  function Check(ok: bool, tag: FieldError): (failed: seq<FieldError>)
    ensures failed == [] <==> ok
  {
    if ok then [] else [tag]
  }

  /** The `required` tags of a present MinIO section, in field order. */
  function MinioFailures(section: Option<MinioConfig>): (failed: seq<FieldError>)
    ensures failed == [] <==> (section.Some? ==> ValidMinio(section.value))
  {
    match section
    case None => []
    case Some(m) =>
      Check(m.endpoint != "", FieldError(MinioEndpoint, Required))
      + Check(m.accessKey != "", FieldError(MinioAccessKey, Required))
      + Check(m.secretKey != "", FieldError(MinioSecretKey, Required))
      + Check(m.bucketName != "", FieldError(MinioBucketName, Required))
  }

  /**
   * validateConfig: validator.Struct walks the fields in declaration order
   * and collects every tag that fails; the MinIO fields are visited only
   * when the section is present. The configuration is accepted when the
   * list is empty.
   */
  function ValidateConfig(c: Config): (failures: seq<FieldError>)
    ensures failures == [] <==> ValidConfig(c)
  {
    Check(c.cache.address != "", FieldError(CacheAddress, Required))
    + Check(c.cache.db >= 0, FieldError(CacheDB, NonNegative))
    + MinioFailures(c.loader.minioConfig)
    + Check(c.loader.moduleLoader != "", FieldError(ModuleLoader, Required))
  }

  /** Whether the MinIO part of the list reports `e`. */
  predicate MinioFails(section: Option<MinioConfig>, e: FieldError) {
    match section
    case None => false
    case Some(m) =>
      e.tag == Required &&
      match e.field
      case MinioEndpoint => m.endpoint == ""
      case MinioAccessKey => m.accessKey == ""
      case MinioSecretKey => m.secretKey == ""
      case MinioBucketName => m.bucketName == ""
      case _ => false
  }

  /** Whether tag `e` of the configuration fails, given the value its field holds. */
  predicate Fails(c: Config, e: FieldError) {
    match e.field
    case CacheAddress => e.tag == Required && c.cache.address == ""
    case CacheDB => e.tag == NonNegative && c.cache.db < 0
    case ModuleLoader => e.tag == Required && c.loader.moduleLoader == ""
    case _ => MinioFails(c.loader.minioConfig, e)
  }

  lemma MinioReports(section: Option<MinioConfig>, e: FieldError)
    ensures e in MinioFailures(section) <==> MinioFails(section, e)
  {
    match section
    case None =>
    case Some(m) =>
      var p := Check(m.endpoint != "", FieldError(MinioEndpoint, Required));
      var q := Check(m.accessKey != "", FieldError(MinioAccessKey, Required));
      var r := Check(m.secretKey != "", FieldError(MinioSecretKey, Required));
      var t := Check(m.bucketName != "", FieldError(MinioBucketName, Required));
      assert MinioFailures(section) == p + q + r + t;
  }

  /** The validator reports exactly the tags that fail. */
  lemma ValidateConfigReports(c: Config, e: FieldError)
    ensures e in ValidateConfig(c) <==> Fails(c, e)
  {
    var a := Check(c.cache.address != "", FieldError(CacheAddress, Required));
    var b := Check(c.cache.db >= 0, FieldError(CacheDB, NonNegative));
    var m := MinioFailures(c.loader.minioConfig);
    var l := Check(c.loader.moduleLoader != "", FieldError(ModuleLoader, Required));
    assert ValidateConfig(c) == a + b + m + l;
    MinioReports(c.loader.minioConfig, e);
  }

  /** Validation never looks at the server section. */
  lemma ValidIgnoresServer(c: Config, s: ServerConfig)
    ensures ValidConfig(c.(server := s)) <==> ValidConfig(c)
    ensures ValidateConfig(c.(server := s)) == ValidateConfig(c)
  {
  }

  /** A present MinIO section with any empty field makes the config invalid. */
  lemma EmptyMinioFieldRejected(c: Config)
    requires c.loader.minioConfig.Some?
    requires var m := c.loader.minioConfig.value;
      m.endpoint == "" || m.accessKey == "" || m.secretKey == "" || m.bucketName == ""
    ensures !ValidConfig(c)
  {
  }

  /** No enumeration check: any non-empty loader kind is as valid as any other. */
  lemma AnyLoaderKindAccepted(c: Config, kind: string)
    requires c.loader.moduleLoader != "" && kind != ""
    ensures ValidConfig(c.(loader := c.loader.(moduleLoader := kind))) <==> ValidConfig(c)
    ensures !ValidConfig(c.(loader := c.loader.(moduleLoader := "")))
  {
  }

  /**
   * NewConfig after koanf has unmarshalled file and environment into `raw`:
   * fill in the host and port fallbacks, then validate.
   */
  method NewConfig(raw: Config) returns (r: Result<Config>)
    ensures r.Success? <==> ValidConfig(raw)
    ensures r.Failure? ==> r.error == InvalidConfig(ValidateConfig(raw)) && r.error.failures != []
    ensures r.Success? ==> r.value.cache == raw.cache && r.value.loader == raw.loader
    ensures r.Success? ==> r.value.server.host != "" && r.value.server.port != 0
    ensures r.Success? && raw.server.host != "" ==> r.value.server.host == raw.server.host
    ensures r.Success? && raw.server.host == "" ==> r.value.server.host == DefaultHost
    ensures r.Success? && raw.server.port != 0 ==> r.value.server.port == raw.server.port
    ensures r.Success? && raw.server.port == 0 ==> r.value.server.port == DefaultPort
  {
    var cfg := raw;
    if cfg.server.host == "" {
      cfg := cfg.(server := cfg.server.(host := DefaultHost));
    }
    if cfg.server.port == 0 {
      cfg := cfg.(server := cfg.server.(port := DefaultPort));
    }
    ValidIgnoresServer(raw, cfg.server);
    var failures := ValidateConfig(cfg);
    if failures != [] {
      return Failure(InvalidConfig(failures));
    }
    return Success(cfg);
  }
}
