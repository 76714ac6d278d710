# JSON:API sort fields, server caches and server resolution — a Dafny model

This project models three pieces of a Laravel JSON:API package:

- **Sort fields** (`src/Core/Query/SortFields.php`, module `Query`): the
  immutable, ordered collection behind the comma-separated `sort` query
  parameter of JSON:API 1.0 ("Fetching Data", "Sorting"). It can be cast from a
  collection, a single field, a list, a string or null; it can be counted,
  iterated, turned into a list of strings and joined back into one string.
  The single sort-field class is not part of this model: it is a type
  parameter `F` with three arbitrary total operations (`parse`, `cast`, `show`)
  gathered in `FieldCodec`. `None` from one of them means "the field class
  threw". The round-trip law of the field class is never built in. It is an
  explicit precondition (`FieldsRoundTrip`) where a lemma needs it.
- **Server** (`src/Http/Server.php`, module `Http`): a class with two
  build-once cells. The schema container is built from the `schemas()` hook on
  first use. The resource factory is built from that container on first use.
  A ghost counter records how often the hook ran. The object invariant
  `Valid()` ties the counter to the first cell and the second cell to the first.
  The foreign objects the server builds are opaque classes that remember only
  what they were built from.
- **Server resolution** (`src/Http/ServerRepository.php`, module `Repository`):
  a pure function over the repository's service container and configuration.
  It guards the name, looks up `json-api.servers.{name}`, constructs the class
  and checks that the result is a server. Construction and the `instanceof`
  test are oracles passed as parameters.

`Wrappers` holds `Option` and `Result`. `Php` holds PHP's `empty()` on
strings, which rejects both `""` and `"0"`.

Four facts about the code that a reader of the sort parameter may not expect:

- `fromString` parses every segment of `explode(',', …)`, empty ones
  included. So `""` is one empty segment: it gives one field if the field
  class accepts the empty string and that class's error otherwise, never zero
  fields (`Query.FromString`).
- The round trip `fromString(toString(x)) == x` fails for the empty
  collection. Its string is `""`, which comes back as one field, or is rejected
  by the field class (`Query.EmptyRoundTrip`). It holds for every non-empty
  collection whose fields round-trip (`Query.RoundTrip`).
- `resources()` returns a new `ResourceContainer` on each call, but every one
  wraps the single resource factory memoised by `allResources()`
  (`Http.Server.Resources`, `Http.UseServer`).
- `cast` and `fromArray` raise different exceptions. `cast` raises
  `UnexpectedValueException` for an unsupported shape. `fromArray` raises
  `InvalidArgumentException` for anything but a list
  (`CastError.UnexpectedValue`, `CastError.NotAnArray`).

## Model

| member | source | states |
|---|---|---|
| `Query.Cast` | src/Core/Query/SortFields.php:47-70 | A collection comes back unchanged. A single field gives a collection of exactly that field. Null gives an empty collection (count 0, empty, not non-empty). A list goes through `fromArray` and a string through `fromString`. The unexpected-value error, with the message "Unexpected sort fields value.", happens exactly for the other shapes. `cast` itself never raises the not-an-array error. |
| `Query.FromArray` | src/Core/Query/SortFields.php:76-85 | Anything but a list or Enumerable is refused with the not-an-array error ("Expecting an array or enumerable object."), and only that is. A list succeeds exactly when every element casts. The result then has one field per element, in order, and field i is the cast of element i. Otherwise the error names the first element the field class refused; every element before it cast. |
| `Query.FromString` | src/Core/Query/SortFields.php:91-96 | Succeeds exactly when every segment of `explode(',', s)` parses. The result then has (number of commas) + 1 fields, and field i is the parse of segment i. Otherwise the error names the first segment the field class refused; every segment before it parsed. |
| `Query.MapFields` | src/Core/Query/SortFields.php:82-84 | Mapping left to right succeeds exactly when every element converts. It then keeps length and order. Otherwise it stops at the first element that fails and names its position, and every element before it converted. |
| `Query.Nullable` | src/Core/Query/SortFields.php:102-109 | Null, and only null, gives a null collection (unlike `cast`, which gives an empty one). Any other value gives exactly what `cast` gives, error included. |
| `Query.Explode` | src/Core/Query/SortFields.php:93 | `explode(',', s)` yields (number of commas) + 1 segments, none of which contains a comma. |
| `Query.Implode` | src/Core/Query/SortFields.php:134 | `implode(',', parts)` of no parts is "". Otherwise it starts with the first part and has the parts' total length plus one delimiter per gap. Its delimiters are those of the parts plus exactly `|parts| - 1`, and with two or more parts a delimiter follows the first part. |
| `Query.ImplodeExplode` | src/Core/Query/SortFields.php:93 | Joining the segments of `explode` with commas gives back the original string. So the segments partition the sort parameter. |
| `Query.ExplodeImplode` | src/Core/Query/SortFields.php:132-135 | Splitting a comma-joined list of one or more comma-free parts gives back exactly those parts. |
| `Query.RoundTrip` | src/Core/Query/SortFields.php:91-135 | For a non-empty collection, `fromString(toString(x)) == x`, assuming each field's string has no comma and parses back to the field. |
| `Query.EmptyRoundTrip` | src/Core/Query/SortFields.php:91-135 | The empty collection does not survive `toString` then `fromString`. The result, when the field class accepts "", has one field. |
| `Query.SortFields.Count` | src/Core/Query/SortFields.php:164-167 | The count equals the number of fields iteration yields. |
| `Query.SortFields.Iterate` | src/Core/Query/SortFields.php:156-159 | Iteration yields the fields in insertion order. |
| `Query.SortFields.IsEmpty` | src/Core/Query/SortFields.php:140-143 | Empty exactly when the count is 0. |
| `Query.SortFields.IsNotEmpty` | src/Core/Query/SortFields.php:148-151 | The negation of `isEmpty`, so non-empty exactly when the count is positive. |
| `Query.SortFields.ToArray` | src/Core/Query/SortFields.php:172-177 | One string per field, `count()` of them, entry i being field i's string form, in insertion order. |
| `Query.SortFields.ToString` | src/Core/Query/SortFields.php:132-135 | The empty collection gives "". For a non-empty collection where no field's string contains a comma, splitting the result on commas gives exactly `toArray()`, and the result holds `count() - 1` commas. |
| `Http.Server.Construct` | src/Http/Server.php:77-85 | Construction fails with "Expecting a non-empty string." exactly when the name is "" or "0". Otherwise it gives a fresh, valid server with the given container and name, both caches unset and the hook not yet run. |
| `Http.Server.constructor` | src/Http/Server.php:77-85 | After the guard, the server keeps the container and name with both caches unset. |
| `Http.Server.Name` | src/Http/Server.php:90-93 | Returns the constructed name, which is a constant of the object and non-empty. |
| `Http.Server.CallSchemasHook` | src/Http/Server.php:69 | The abstract `schemas()` hook returns the subclass's declared list, and each run is counted. |
| `Http.Server.Container` | src/Http/Server.php:98-107 | The first call builds the schema container from the container and the hook's list, running the hook once. Every later call returns that same object without running the hook. The hook count is 1 afterwards. |
| `Http.Server.AllResources` | src/Http/Server.php:139-148 | The first call builds the resource factory from the memoised schema container, building that first if needed. Later calls return the same factory. |
| `Http.Server.Resources` | src/Http/Server.php:112-115 | Each call returns a fresh resource container wrapping the one memoised factory. |
| `Http.Server.Store` | src/Http/Server.php:120-123 | Each call returns a fresh store over the memoised schema container. The resource cache is untouched. |
| `Http.Server.Encoder` | src/Http/Server.php:128-134 | The encoder is built over the same memoised factory that `resources()` wraps. |
| `Http.UseServer` | src/Http/Server.php:98-148 | One call sequence (container, store, resources, encoder, resources, container) from any valid state: `container()` and `store()` share one schema container, two `resources()` calls give distinct wrappers over one factory, which the encoder shares, and the hook has run exactly once. Afterwards the server holds that schema container and that factory, and any cell set beforehand is the one returned. The same facts hold for any interleaving, because they follow from the per-method postconditions of `Container`, `AllResources`, `Resources`, `Store` and `Encoder`, each of which keeps `Valid()`. |
| `Repository.Server` | src/Http/ServerRepository.php:58-77 | Each outcome holds exactly under one condition. The invalid-name error: the name is "" or "0". The "Unable to construct server {name}." error: the name is accepted and the entry under `json-api.servers.{name}` is missing or its constructor throws. The "Class for server {name} is not a server instance." error: the object is built but is not a server. Success: the object is built and is a server. The server returned is the one built from the configured class with the repository's container and the same name. |
| `Repository.ConfigKey` | src/Http/ServerRepository.php:64 | The lookup key is `json-api.servers.` followed by the name, unchanged. |
| `Repository.ConfigKeyInjective` | src/Http/ServerRepository.php:64 | Different server names are looked up under different keys. |
| `Repository.OnlyOwnKeyConsulted` | src/Http/ServerRepository.php:64-67 | Resolution reads no configuration entry other than the server's own key. |
| `Repository.EmptyNameRefusedFirst` | src/Http/ServerRepository.php:60-62 | An empty name is refused before the configuration or any class is consulted: the result does not depend on them. |

## Left out

- The single sort-field class is not part of this model. Its parsing (the `-` prefix for descending order), casting and formatting are arbitrary functions. Its exceptions are kept only as the position of the offending segment or element.
- `Query.SortFields.ToString`: PHP's `implode` turns each field into a string through its `__toString()`, while `toArray` calls its `toString()`. The field class is not part of this model, so both are the one `show` function: the model takes the two to agree.
- `Query.Cast`: for a collection, PHP returns the identical object. The model returns an equal value, which is the same thing for an immutable collection.
- `Query.FromArray`: arrays and Enumerables are ordered lists of values. PHP arrays with string keys, which the spread into the constructor treats differently, are not modelled.
- `Query.RoundTrip`: the field class's round-trip law is a precondition on the fields involved, not a proved fact, because that class is not part of this model.
- `Http.Server.Encoder`: the encoder factory that the service container resolves is foreign. The model builds the encoder directly over the resource factory.
- `Http.Server.Container` and `Http.Server.AllResources`: the `schemas()` hook and the foreign constructors are taken not to throw. In PHP the cache cell is assigned only after the build returns, so after a throw the cell stays unset and the next call to `container()`, `store()`, `resources()` or `encoder()` runs the hook again. The model's "hook runs at most once" (`Valid()`, `schemasCalls == 1`) holds for runs in which no build throws.
- The `serving()` hook and the contents of the schema container, resource factory, resource container, store and encoder are foreign or abstract. Only identity and memoisation are modelled.
- `Repository.Server`: the configuration is a flat map from the full dotted key. Laravel's nested-array walk behind a dotted key, which a name containing `.` would reach, is not modelled.
- `Repository.Server`: the result is a function of the container, the configuration, the name and the construction oracle, so there is no cache. That each call allocates a new object is the oracle's business and is not stated.
- The request middleware, the service provider, the controller actions and the integration tests and fixtures are not part of this model. They are framework plumbing with no logic of their own beyond it.
