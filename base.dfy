/**
 * Shared vocabulary of the module-resolution model: raw module bytes, the
 * Option/Result wrappers that stand for Go's (value, error) pairs, and the
 * errors the core returns, each wrapping its cause the way the Go code does
 * with fmt.Errorf("...: %w", err).
 */
module Base {

  newtype byte = b: int | 0 <= b < 256

  /** A Wasm module's raw bytecode. */
  type Bytes = seq<byte>

  datatype Option<T> = None | Some(value: T)

  datatype Result<T> = Success(value: T) | Failure(error: Error)

  /** The configuration fields that carry a validation tag. */
  datatype ConfigField =
    | CacheAddress | CacheDB | MinioEndpoint | MinioAccessKey | MinioSecretKey | MinioBucketName | ModuleLoader

  /** The validation tags in use: `required` and `gte=0`. */
  datatype Tag = Required | NonNegative

  /** One failed validation tag, as one entry of the validator's error list. */
  datatype FieldError = FieldError(field: ConfigField, tag: Tag)

  datatype Error =
      /** "module not found in cache": the key is absent from Redis */
    | CacheMiss
      /** "failed to get module from cache: ...": any other Redis GET failure */
    | CacheGetFailed
      /** "failed to cache module: ...": the Redis SET failed */
    | CacheSetFailed
      /** os.ReadFile failed for this path */
    | FileReadFailed(path: string)
      /** reading object `key` of `bucket` from the object store failed */
    | ObjectFetchFailed(bucket: string, key: string)
      /** os.ReadDir failed for this directory */
    | DirReadFailed(dir: string)
      /** "failed to load module <objectPath>: ..." */
    | LoadFailed(objectPath: string, cause: Error)
      /** "failed to cache module <objectPath>: ..." */
    | CacheWriteFailed(objectPath: string, cause: Error)
      /** "failed to read module directory: ..." */
    | ModuleDirFailed(cause: Error)
      /** "failed to load module <moduleName>: ..." raised by the preload sweep */
    | PreloadFailed(moduleName: string, cause: Error)
      /** "failed to create Minio client: ..." */
    | MinioClientFailed(cause: Error)
      /** the last error of a connection retry loop, returned unwrapped */
    | ConnectFailed(reason: string)
      /** "invalid configuration: validation failed: ...", listing every failed tag */
    | InvalidConfig(failures: seq<FieldError>)
}
