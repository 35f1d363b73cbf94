/** Every exception the modelled code raises, one constructor per raise site or kind. */
module Errors {
  import opened Json

  datatype Error =
    /** `ValueError('Unknown registry name ...')` from the image loop. */
    | UnknownRegistry(registryName: string, image: string, tag: string)
    /** A failed `docker build`. */
    | BuildFailed(ref: string)
    /** A failed `docker push`. */
    | PushFailed(repository: string, tag: string)
    /** `AttributeError`: `.get` called on something that is not a dict. */
    | NotADict
    /** `TypeError`: iterating over a value that is not iterable. */
    | NotIterable
    /** `TypeError`: a list or dict used as a dict key. */
    | Unhashable
    /** `ValueError('manifest must include apiVersion, kind, metadata.name')`. */
    | MissingRequiredFields
    /** `ValueError('Unknown resource ... Is the CRD installed?')`. */
    | UnknownResource(apiVersion: Value, kind: Value)
    /** `ResourceNotFoundError` from an unguarded discovery lookup. */
    | ResourceNotFound(apiVersion: Value, kind: Value)
    /** `ApiException` with its HTTP status, re-raised. */
    | ApiFailure(status: int)
    /** `TimeoutError` from `asyncio.timeout` around a polling wait. */
    | Timeout
    /** `ValueError('Cluster name should always be defined ...')`. */
    | ClusterNameRequired
    /** `ValueError('Unknown cluster ...')`. */
    | UnknownCluster(cluster: string)
    /** `ValueError('Unable to load config for cluster ...')`. */
    | UnableToLoadConfig(cluster: string)
    /** `FileNotFoundError` for a secret file. */
    | FileNotFound(path: string)
    /** `ValueError('Environment variable ... is not set')`. */
    | EnvNotSet(variable: string)
    /** `KeyError` for a secret name missing from the global secrets table. */
    | UnknownSecret(secret: string)
    /** `RuntimeError` when a secret has no source at all. */
    | NoSecretSource
    /** `ValueError('At least one flag must be set ...')`. */
    | NoFlag(challengeId: string)
    /** `ValueError('exactly one of ... must be provided')`. */
    | NotExactlyOne
    /** `NotADirectoryError` from `iterdir` on a path that is a file. */
    | NotADirectory(path: string)
    /** `UnicodeDecodeError` from a strict `bytes.decode()`. */
    | DecodeFailed
}
