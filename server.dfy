/**
 * A JSON:API server: a named object that builds its schema container and
 * its resource factory on first use and keeps them for its lifetime.
 *
 * The framework's service container and the classes built here (schema
 * container, resource factory, resource container, store, encoder) are
 * foreign; they are opaque objects below, remembered only by what they
 * were built from, so that identity and memoisation can be stated.
 */
module Http {
  import opened Wrappers
  import Php

  /** The framework's service container. */
  class AppContainer {
    constructor () {}
  }

  /** Built from the service container and the list the `schemas()` hook returns. */
  class SchemaContainer {
    const app: AppContainer
    const schemas: seq<string>

    constructor (app: AppContainer, schemas: seq<string>)
      ensures this.app == app && this.schemas == schemas
    {
      this.app := app;
      this.schemas := schemas;
    }
  }

  /** Built from the resource classes of one schema container. */
  class ResourceFactory {
    const source: SchemaContainer

    constructor (source: SchemaContainer)
      ensures this.source == source
    {
      this.source := source;
    }
  }

  /** A fresh wrapper around a resource factory. */
  class ResourceContainer {
    const factory: ResourceFactory

    constructor (factory: ResourceFactory)
      ensures this.factory == factory
    {
      this.factory := factory;
    }
  }

  /** The query and persistence facade over a schema container. */
  class Store {
    const schemas: SchemaContainer

    constructor (schemas: SchemaContainer)
      ensures this.schemas == schemas
    {
      this.schemas := schemas;
    }
  }

  /** An encoder built over a resource factory. */
  class Encoder {
    const resources: ResourceFactory

    constructor (resources: ResourceFactory)
      ensures this.resources == resources
    {
      this.resources := resources;
    }
  }

  const EmptyNameMessage: string := "Expecting a non-empty string."

  class Server {
    const app: AppContainer
    const name: string
    /** What the subclass's `schemas()` hook returns. */
    const declared: seq<string>

    var schemas: Option<SchemaContainer>
    var resources: Option<ResourceFactory>
    /** How many times the `schemas()` hook has run. */
    ghost var schemasCalls: nat

    /**
     * The object invariant: the name passed the guard, the hook has run
     * exactly when the schema container exists, and the resource factory
     * exists only over that schema container.
     */
    ghost predicate Valid()
      reads this
    {
      && !Php.IsEmpty(name)
      && schemasCalls == (if schemas.Some? then 1 else 0)
      && (schemas.Some? ==> schemas.value.app == app && schemas.value.schemas == declared)
      && (resources.Some? ==> schemas.Some? && resources.value.source == schemas.value)
    }

    /** The constructor after its guard; `Construct` is the guarded entry. */
    constructor (app: AppContainer, name: string, declared: seq<string>)
      requires !Php.IsEmpty(name)
      ensures Valid()
      ensures this.app == app && this.name == name && this.declared == declared
      ensures schemas.None? && resources.None? && schemasCalls == 0
    {
      this.app := app;
      this.name := name;
      this.declared := declared;
      schemas := None;
      resources := None;
      schemasCalls := 0;
    }

    /** `new Server($container, $name)`: an empty name (PHP `empty`, so "" or "0") throws. */
    static method Construct(app: AppContainer, name: string, declared: seq<string>)
      returns (r: Result<Server, string>)
      ensures r.Err? <==> Php.IsEmpty(name)
      ensures r.Err? ==> r.error == EmptyNameMessage
      ensures r.Ok? ==> fresh(r.value) && r.value.Valid()
      ensures r.Ok? ==> r.value.app == app && r.value.name == name && r.value.declared == declared
      ensures r.Ok? ==> r.value.schemas.None? && r.value.resources.None? && r.value.schemasCalls == 0
    {
      if Php.IsEmpty(name) {
        return Err(EmptyNameMessage);
      }
      var s := new Server(app, name, declared);
      return Ok(s);
    }

    /** The name given at construction; `name` is a constant, so every call returns it. */
    method Name() returns (n: string)
      requires Valid()
      ensures n == name && !Php.IsEmpty(n)
    {
      return name;
    }

    /** The protected `schemas()` hook of the subclass. */
    method CallSchemasHook() returns (list: seq<string>)
      modifies this`schemasCalls
      ensures list == declared
      ensures schemasCalls == old(schemasCalls) + 1
    {
      schemasCalls := schemasCalls + 1;
      return declared;
    }

    /** `container()`: builds the schema container on the first call and returns the same one afterwards. */
    method Container() returns (c: SchemaContainer)
      requires Valid()
      modifies this
      ensures Valid()
      ensures schemas == Some(c) && c.app == app && c.schemas == declared
      ensures old(schemas).Some? ==> c == old(schemas).value && schemasCalls == old(schemasCalls)
      ensures old(schemas).None? ==> fresh(c)
      ensures schemasCalls == 1
      ensures resources == old(resources)
    {
      if schemas.Some? {
        return schemas.value;
      }
      var list := CallSchemasHook();
      c := new SchemaContainer(app, list);
      schemas := Some(c);
    }

    /** The private `allResources()`: built once, from the memoised schema container. */
    method AllResources() returns (f: ResourceFactory)
      requires Valid()
      modifies this
      ensures Valid()
      ensures resources == Some(f) && schemas.Some? && f.source == schemas.value
      ensures old(resources).Some? ==> f == old(resources).value
      ensures old(resources).None? ==> fresh(f)
      ensures old(schemas).Some? ==> schemas == old(schemas)
      ensures schemasCalls == 1
    {
      if resources.Some? {
        return resources.value;
      }
      var c := Container();
      f := new ResourceFactory(c);
      resources := Some(f);
    }

    /** `resources()`: a new container on every call, over the one memoised factory. */
    method Resources() returns (rc: ResourceContainer)
      requires Valid()
      modifies this
      ensures Valid() && fresh(rc)
      ensures resources == Some(rc.factory) && schemas.Some? && rc.factory.source == schemas.value
      ensures old(resources).Some? ==> rc.factory == old(resources).value
      ensures old(schemas).Some? ==> schemas == old(schemas)
      ensures schemasCalls == 1
    {
      var f := AllResources();
      rc := new ResourceContainer(f);
    }

    /** `store()`: a new store over the memoised schema container. */
    method Store() returns (st: Store)
      requires Valid()
      modifies this
      ensures Valid() && fresh(st)
      ensures schemas == Some(st.schemas)
      ensures old(schemas).Some? ==> st.schemas == old(schemas).value
      ensures resources == old(resources)
      ensures schemasCalls == 1
    {
      var c := Container();
      st := new Store(c);
    }

    /** `encoder()`: an encoder over the same memoised factory that `resources()` wraps. */
    method Encoder() returns (e: Encoder)
      requires Valid()
      modifies this
      ensures Valid()
      ensures resources == Some(e.resources) && schemas.Some? && e.resources.source == schemas.value
      ensures old(resources).Some? ==> e.resources == old(resources).value
      ensures old(schemas).Some? ==> schemas == old(schemas)
      ensures schemasCalls == 1
    {
      var f := AllResources();
      e := new Encoder(f);
    }
  }

  /**
   * A run of every accessor, twice where it matters: the schema container
   * is one object throughout, the hook ran once, and the two resource
   * containers are distinct wrappers over one factory that the encoder shares.
   */
  method UseServer(s: Server)
    returns (c1: SchemaContainer, c2: SchemaContainer, st: Store,
             r1: ResourceContainer, r2: ResourceContainer, e: Encoder)
    requires s.Valid()
    modifies s
    ensures s.Valid() && s.schemasCalls == 1
    ensures c1 == c2 == st.schemas
    ensures r1 != r2 && r1.factory == r2.factory == e.resources
    ensures r1.factory.source == c1
    ensures s.schemas == Some(c1) && s.resources == Some(r1.factory)
    ensures old(s.schemas).Some? ==> c1 == old(s.schemas).value
    ensures old(s.resources).Some? ==> r1.factory == old(s.resources).value
  {
    c1 := s.Container();
    st := s.Store();
    r1 := s.Resources();
    e := s.Encoder();
    r2 := s.Resources();
    c2 := s.Container();
  }
}
