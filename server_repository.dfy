/**
 * Resolving a server by name: guard the name, look up its class in the
 * configuration, construct it with the service container and the name,
 * and check that the result is a server.
 *
 * The repository holds only the service container and the configuration,
 * so resolution is a function of those, the name, and two oracles for what
 * PHP does at run time: `new $class(...)` (which may throw) and
 * `instanceof` the server contract.
 */
module Repository {
  import opened Wrappers
  import Php

  const ServersPrefix: string := "json-api.servers."
  const EmptyNameMessage: string := "Expecting a non-empty JSON API server name."

  /** The configuration key under which a server's class is found. */
  function ConfigKey(name: string): (k: string)
    ensures |k| == |ServersPrefix| + |name|
    ensures k[..|ServersPrefix|] == ServersPrefix && k[|ServersPrefix|..] == name
  {
    ServersPrefix + name
  }

  /** Distinct server names are looked up under distinct keys. */
  lemma ConfigKeyInjective(a: string, b: string)
    requires ConfigKey(a) == ConfigKey(b)
    ensures a == b
  {
  }

  /** The outcome of `new $class($container, $name)`. */
  datatype Construction<O> = Built(obj: O) | Threw

  datatype RepositoryError =
    | InvalidName(message: string)         // InvalidArgumentException
    | ConstructionFailed(message: string)  // RuntimeException: the constructor threw
    | NotAServer(message: string)          // RuntimeException: wrong class

  function UnableToConstruct(name: string): string {
    "Unable to construct server " + name + "."
  }

  function NotAServerInstance(name: string): string {
    "Class for server " + name + " is not a server instance."
  }

  /** The repository's only state: the service container and the configuration (flattened to dotted keys). */
  datatype ServerRepository<A, C> = ServerRepository(app: A, config: map<string, C>)

  /**
   * `server($name)`. A missing configuration entry is `null`, and `new null(...)`
   * throws, so it ends in the same construction failure as a throwing constructor.
   */
  function Server<A, C, O>(
    repo: ServerRepository<A, C>,
    name: string,
    construct: (C, A, string) -> Construction<O>,
    isServer: O -> bool): (r: Result<O, RepositoryError>)
    ensures Php.IsEmpty(name) <==> r == Err(InvalidName(EmptyNameMessage))
    ensures r == Err(ConstructionFailed(UnableToConstruct(name))) <==>
      && !Php.IsEmpty(name)
      && (ConfigKey(name) !in repo.config || construct(repo.config[ConfigKey(name)], repo.app, name).Threw?)
    ensures r == Err(NotAServer(NotAServerInstance(name))) <==>
      && !Php.IsEmpty(name)
      && ConfigKey(name) in repo.config
      && var built := construct(repo.config[ConfigKey(name)], repo.app, name);
         built.Built? && !isServer(built.obj)
    ensures r.Ok? <==>
      && !Php.IsEmpty(name)
      && ConfigKey(name) in repo.config
      && var built := construct(repo.config[ConfigKey(name)], repo.app, name);
         built.Built? && isServer(built.obj)
    ensures r.Ok? ==> construct(repo.config[ConfigKey(name)], repo.app, name) == Built(r.value) && isServer(r.value)
  {
    if Php.IsEmpty(name) then Err(InvalidName(EmptyNameMessage))
    else
      var key := ConfigKey(name);
      if key !in repo.config then Err(ConstructionFailed(UnableToConstruct(name)))
      else match construct(repo.config[key], repo.app, name)
        case Threw => Err(ConstructionFailed(UnableToConstruct(name)))
        case Built(obj) =>
          if isServer(obj) then Ok(obj)
          else Err(NotAServer(NotAServerInstance(name)))
  }

  /**
   * Only the entry under the server's own key is consulted: two configurations
   * that agree on that entry resolve the name identically.
   */
  lemma OnlyOwnKeyConsulted<A, C, O>(
    repo1: ServerRepository<A, C>,
    repo2: ServerRepository<A, C>,
    name: string,
    construct: (C, A, string) -> Construction<O>,
    isServer: O -> bool)
    requires repo1.app == repo2.app
    requires ConfigKey(name) in repo1.config <==> ConfigKey(name) in repo2.config
    requires ConfigKey(name) in repo1.config ==> repo1.config[ConfigKey(name)] == repo2.config[ConfigKey(name)]
    ensures Server(repo1, name, construct, isServer) == Server(repo2, name, construct, isServer)
  {
  }

  /** An empty name is refused whatever the configuration and the classes would do. */
  lemma EmptyNameRefusedFirst<A, C, O>(
    repo: ServerRepository<A, C>,
    name: string,
    construct: (C, A, string) -> Construction<O>,
    isServer: O -> bool,
    other: ServerRepository<A, C>,
    otherConstruct: (C, A, string) -> Construction<O>,
    otherIsServer: O -> bool)
    requires Php.IsEmpty(name)
    ensures Server(repo, name, construct, isServer) == Server(other, name, otherConstruct, otherIsServer)
  {
  }
}
