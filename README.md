# patchwork request engine, modelled in Dafny

patchwork is the request engine behind a coreference-graph ("spindle") linked-data site. For
each HTTP request the host framework (libquilt) hands it a request record: the path, the query
parameters, a canonical-URI builder for the response, and an RDF model to fill. patchwork then:

- decides which handler the request goes to: partition index, item, URI lookup, query at the root, or home;
- for an item, normalises the identifier in the path and fetches the item's description from one
  primary cache (S3, a directory of N-Quads files, or SPARQL), falling back to the database;
- post-processes the item's graph: migrates the abstract document's statements into the concrete
  graph, strips contexts not in an `allow` whitelist, and flips `owl:sameAs` statements;
- runs the related-items or index query through a database or SPARQL back-end;
- enriches the result with pagination links, VoID dataset typing, an OpenSearch description and an
  English title;
- states how the concrete and abstract documents relate.

Start-up reads the configuration: the score threshold, the partition registry
(`partition:<name>:<prop>` keys) and the item cache. The update side (`twine/update.c`) turns
identifiers and update messages into the local URIs whose cached descriptions are rebuilt.

The model is one Dafny module per part of the program:

| module | file | models |
|---|---|---|
| `Strings` | strings.dfy | the C character classes and string routines the code relies on (`isalnum`, `tolower`, `strchr`, `atoi`, ...) |
| `Patchwork` | patchwork.dfy | the private header: query mode, partition and media-match records, constants |
| `Quilt` | quilt.dfy | the framework as the engine sees it: statements (quads), the model as a sequence read with set semantics, the canonical-URI builder, the request class |
| `Cache` | cache.dfy | cache selection at start-up, as a class over the cache fields of the process state |
| `Plugin` | plugin.dfy | plug-in start-up: the partition registry (find-or-append), configuration-key parsing, `patchwork_array_contains` |
| `Query` | query.dfy | the query descriptor, `patchwork_query_request`, `patchwork_query`, meta, OpenSearch, title, membership |
| `Dispatch` | request.dfy | the request classifier and `spindle_add_concrete` |
| `Item` | item.dfy | item identifier, source chain, post-processing, related items, lookup |
| `Index` | index.dfy | the index pipeline |
| `Update` | update.dfy | identifier parsing, update messages and the rebuild-all URI loop |

The RDF model of a request is a field `model: seq<Quad>` of the `Request` class. Methods add and
remove statements there in place. Properties are stated on `Members(model)`, the set of its
statements: librdf models are sets, and `Add` never inserts a statement twice. The order of the
sequence matters in one place only: `patchwork_query_subjtitle_` keeps the first label it meets.

Several parts live in other libraries or in back-end files that are not part of this model
(the query, lookup, membership and fetch back-ends declared in p_patchwork.h, URI rendering in
libquilt, cache updates in libspindle). They are modelled as function values that the request
or the caller supplies:

- URI rendering (`quilt_canon_str`), as a function from the canonical-URI record and a rendering form to a string;
- the back-end query executors;
- the S3, SPARQL and database fetchers;
- the lookup and membership back-ends;
- reading a cache file;
- `spindle_cache_update` and `spindle_cache_update_set`.

Each such function stands for one operation of the original. Handlers that thread a status code
return it as an `int`, with the source's own values (200, 404, 500, 0, -1).

Several behaviours of the code differ from a natural reading of it. The model keeps each of them as the code has it:

- item identifiers are accepted with `isalnum`, not only hexadecimal digits;
- without a cache, SPARQL is the primary source even when a database is configured;
- flipped `owl:sameAs` statements go into the original statement's context;
- the collection label of a title is looked up on the result set's own URI (the `abstract` argument), not on the collection's;
- a medium named by the media table suppresses the trailing " media";
- the explicit audience list of a title is written past the point where the title is terminated, so it never appears (`Query.ComposeTitle` returns it separately as `cut`).

The dispatcher cited below is `quilt/request.c`, an older snapshot whose functions are named
`spindle_*`. `patchwork_add_concrete` is modelled by its `spindle_add_concrete` there.

## Model

| member | source | states |
|---|---|---|
| `Patchwork.QueryMode.Code` | p_patchwork.h:75-79 | the two query modes are numbered 0 (default) and 1 (autocomplete), and only those |
| `Cache.Choose` | module.c:109-143 | the initialiser start-up runs: a `cache` URI of scheme s3 uses its host as the bucket; scheme file uses its path; any other scheme is refused; with no `cache` URI the deprecated `bucket` is used; with neither, no cache |
| `Cache.CacheSettings.InitS3` | cache/cache.c:76-107 | a bucket that could not be created gives -1 and no bucket; otherwise 0, the bucket kept, the fetch limit 1024 times the configured kilobytes (default 2048), and the verbose flag as configured |
| `Cache.CacheSettings.InitFile` | cache/cache.c:110-138 | a missing or empty path gives 0 and sets no path; otherwise the path is stored with exactly one trailing '/' added only when missing |
| `Cache.CacheSettings.Init` | cache/cache.c:31-73 | an unsupported scheme gives -1 and changes nothing; no cache configured gives 0 and changes nothing; a file cache gives 0, keeps the bucket and S3 settings, and sets the slashed path only when the path is non-empty; an S3 cache keeps the path and gives 0 with the bucket, fetch limit and verbose flag when the bucket is created, -1 with no bucket and the old settings otherwise |
| `Plugin.ArrayContains` | module.c:86-99 | 1 exactly when some element of the list equals the string, 0 otherwise (also for an absent list) |
| `Plugin.ParsePartitionKey` | module.c:221-238 | a key is accepted exactly when it starts with `partition:`, has a second ':' and a name shorter than 63 characters; the key is then `partition:` + name + ':' + property |
| `Plugin.PartitionKeyRoundTrip` | module.c:221-238 | a key written from a name (no ':', under 63 characters) and a property parses back to that name and property |
| `Plugin.Find` | module.c:267-273 | the registry position found holds the path and is the first such position; none is found only when no entry has that path |
| `Plugin.State.Partition` | module.c:262-288 | an existing entry is returned with the registry unchanged; otherwise exactly one entry with no title and no class is appended and returned; paths stay unique |
| `Plugin.Configure` | module.c:240-257 | after a key for a path, that path has an entry (appended at most once); `class` replaces its class, `title` its title, other properties change neither; other entries are untouched; paths stay unique |
| `Plugin.State.PartitionCb` | module.c:213-259 | always 0; an unparsable key leaves the registry unchanged; a parsed key applies its property to the path "/" + name |
| `Plugin.ScanAll` | module.c:77-77 | applying configuration keys one after the other keeps partition paths unique |
| `Plugin.EverythingStaysSingle` | module.c:75-77 | keys for `/everything` edit the entry registered before the scan: it stays first and no second entry with its path appears |
| `Plugin.State.Init` | module.c:53-79 | 0 or -1; a failed registration or database connection, an unsupported cache scheme or an S3 bucket that cannot be created gives -1, and 0 exactly when none of these happens; the threshold is the configured score or 40; on success the cache holds the bucket, fetch limit and verbose flag of the S3 choice, the slashed path of a non-empty file path, and nothing new otherwise, and the registry is the result of the scan started from `/everything` titled "Everything", with unique paths |
| `Query.QueryInit` | query.c:33-38 | a fresh descriptor has score -1, the default mode, and every other field zero, false or absent |
| `Query.ResolveScore` | query.c:149-159 | a non-empty score parameter is read with atoi; a score still at -1 becomes the threshold, so the score is never -1 once the threshold is not |
| `Query.EchoText` | query.c:47-62 | non-empty `q` and `collection` are echoed into the canonical URI; every other parameter is left alone |
| `Query.EchoClass` | query.c:64-74 | a non-empty `class` parameter is echoed; the partition's class never is |
| `Query.EchoPaging` | query.c:75-85 | the offset is echoed only when non-zero, the limit only when it differs from the default |
| `Query.EchoMedia` | query.c:87-92 | a given medium is echoed, empty or not |
| `Query.EchoDuration` | query.c:94-105 | non-zero duration bounds are echoed |
| `Query.EchoTopics` | query.c:106-119 | `about` and `for` are echoed with every value given |
| `Query.EchoType` | query.c:121-129 | a media type is echoed unless it is "any" |
| `Query.EchoModeScore` | query.c:131-155 | the mode is echoed only when it is "autocomplete"; a non-empty score is echoed as given |
| `Query.EchoSpec` | query.c:42-161 | all echo rules together, and parameters the query does not read are never touched |
| `Query.ReadText` | query.c:46-74 | non-empty `q`, `collection` or `class` make the query explicit; `lang` is read only with a non-empty `q`; the partition's class applies only when the request gives none, and never makes the query explicit |
| `Query.ReadMedia` | query.c:86-105 | a given medium or a non-zero duration bound makes the query explicit |
| `Query.ReadTopics` | query.c:106-125 | any `about` or `for` makes the query explicit, a media type only when it is not empty |
| `Query.ReadModeScore` | query.c:130-159 | any non-empty mode makes the query explicit but only "autocomplete" sets the mode; a non-empty score makes it explicit; the score is resolved |
| `Query.QueryRequest` | query.c:42-161 | always 200; the new descriptor is `Requested` of the old one and the parameters: parameters override the text, language, collection and class, the class argument applies only without a `class` parameter, the score is resolved against the threshold, explicit exactly when some parameter sets it; the canonical parameters after the echo |
| `Query.AboutCanon` | query.c:190-199 | the subject of a single-topic query is the request base, the canonical path plus the topic, and fragment `id` |
| `Query.FillRefs` | query.c:178-199 | `base` and `resource` are filled only when absent, with the abstract and user-supplied renderings of the given canonical URI; `rcanon` is built exactly when `about` has one value; nothing else changes |
| `Query.Run` | query.c:174-214 | the subject is set only for a freshly filled resource of an explicit or index query; the database executor runs on the filled descriptor when a database is configured, SPARQL otherwise; its status and `more` flag are the result and its statements are appended |
| `Query.PrevOffset` | query.c:231-235 | the previous page's offset is one page back but never negative, and 0 exactly when the offset is at most one page |
| `Query.PrevCanon` | query.c:230-243 | the previous-page link carries that offset, or no offset parameter when it is 0; nothing else of the canonical URI changes |
| `Query.NextCanon` | query.c:254-255 | the next-page link carries offset + limit; nothing else changes |
| `Query.MetaLinksSpec` | query.c:227-283 | a previous link exactly when the offset is non-zero, a next link exactly when there are more results, `isPartOf` exactly when resource differs from base, the base label exactly then and with an index title |
| `Query.MetaPageLinks` | query.c:227-262 | the previous and next links point at the renderings of the previous and next pages |
| `Query.MetaDatasetLinks` | query.c:263-279 | a resource other than the base is part of it, the base is a dataset, labelled (en-gb) with the index title when there is one |
| `Query.MetaLinks` | query.c:280-283 | the resource is always typed `void:Dataset` |
| `Query.MetaLinksContext` | query.c:226-283 | every navigation statement goes into the request's graph |
| `Query.Meta` | query.c:218-292 | always 200; the model gains the navigation statements, and the title exactly for index or explicit queries |
| `Query.OsdTemplate` | query.c:306-324 | the OpenSearch template replaces every parameter by the placeholders: class and collection only on the home page or outside an index, mode only on the home page, no extension |
| `Query.LookupEndpoint` | query.c:356-358 | the lookup endpoint is the canonical URI with `uri` as its one, empty, parameter |
| `Query.OsdDescription` | query.c:370-373 | the description document has no parameters, no explicit extension and extension `osd` |
| `Query.OsdStatementsAbout` | query.c:304-380 | every OpenSearch statement is about the request subject and in the request's graph |
| `Query.OsdCoreSpec` | query.c:325-345 | every description carries the URL template and the four languages en-gb, cy-gb, gd-gb and ga-gb |
| `Query.OsdHomeSpec` | query.c:349-380 | the subject is typed `void:Dataset` exactly on the home page, where the description document is also linked |
| `Query.OsdHomePredicates` | query.c:349-380 | the lookup endpoint and the description document are advertised exactly on the home page |
| `Query.Osd` | query.c:296-383 | always 200; the model gains exactly the OpenSearch statements |
| `Query.Answer` | item.c:137-152 | the status of the filled query's execution; its statements are added; a failure stops there; on 200 the navigation statements of the query with its `more` flag and the OpenSearch statements are present |
| `Query.Enrich` | item.c:142-152 | always 200; the navigation and OpenSearch statements are added to the model |
| `Query.FirstLabel` | query.c:397-429 | no label is found exactly when no literal label of the subject has a matching tag; a found label is the first such one in model order |
| `Query.SubjTitle` | query.c:386-444 | the first label tagged en-gb (any case) wins, else the first tagged en, else the first untagged one; non-literals are skipped; none exactly when nothing qualifies |
| `Query.TitleOpens` | query.c:518-542 | the title opens with its head (index title, else "Items with class <C>", else "Everything"), and with no clause it is the head alone |
| `Query.TitleNumber` | query.c:573-584 | the related-media clause follows the collection and text clauses and reads "has" for a singular head, "have" otherwise |
| `Query.TitleMediaWord` | query.c:585-611 | a medium the table does not name ends the title with " media" when no type or audience follows |
| `Query.TitleMediaNamed` | query.c:585-611 | a medium the table names ends the title with " " and that name when no type or audience follows |
| `Query.TitleAudienceCut` | query.c:619-642 | an audience list without "all" gives the same title as an empty one: the explicit list is written after the point where the title is terminated |
| `Query.FindMedia` | query.c:585-595 | the media-table entry used is the first whose URI is the medium |
| `Query.ComposeTitle` | query.c:516-642 | the text written through the moving pointer is the title function's, and what the explicit-audience branch writes past the terminator is returned apart |
| `Query.ListAudience` | query.c:628-638 | the audience list is joined with ", " between angle brackets |
| `Query.Title` | query.c:447-650 | returns 0; the model gains the title statement, in the request's graph, tagged en-gb, with the collection label looked up on the result set's URI |
| `Query.Membership` | query.c:653-660 | without a database every item passes with 200; with one, the database decides |
| `Dispatch.IsItemPathSpec` | quilt/request.c:171-194 | a path names an item exactly when, after its leading slashes, it is 32 alphanumerics followed by the end or a '/' |
| `Dispatch.ClassFilter` | quilt/request.c:209-219 | the class filter is the class URI itself with a database, `FILTER ( ?class = <C> )` otherwise |
| `Dispatch.IsPartition` | quilt/request.c:198-251 | a registered path makes the request an index with that entry's title and class filter (none without a class) and adds the path; otherwise a `class` parameter at the root echoes the class, titles the index with it only when no title is set, and makes it an index; otherwise nothing changes |
| `Dispatch.IsQuery` | quilt/request.c:151-167 | at the root, any of `q`, `media`, `for`, `type` makes the request an index and not home; otherwise nothing changes |
| `Dispatch.IsLookup` | quilt/request.c:254-261 | a lookup is the `uri` parameter, at the root only |
| `Dispatch.Process` | quilt/request.c:33-76 | the route is partition, item, lookup, query, home, else not found, the first that matches; only partition and query routes change the index and home flags; a registered path appends its URI to the canonical path and takes its title, a root `class` parameter is set in the canonical URI and becomes the title when none is set, and every other route leaves the canonical URI and the title unchanged |
| `Dispatch.FormatType` | quilt/request.c:108-120 | a format class is given exactly for text/turtle, application/rdf+xml and text/rdf+n3 |
| `Dispatch.ConcreteStatementsSpec` | quilt/request.c:89-137 | the abstract document's topic and format are always stated, the concrete document is typed `dcmitype:Text` and given its media type, and its RDF type is a format class exactly for the three serialisations |
| `Dispatch.AddConcrete` | quilt/request.c:82-143 | always 200; the model gains exactly those statements |
| `Item.IdChars` | item.c:326-339 | a segment spells an identifier exactly when it has only alphanumerics and hyphens; the identifier is lower-case alphanumerics and no longer than the segment |
| `Item.IdCharsPrefix` | item.c:326-339 | a prefix of a segment spells a prefix-length identifier no longer than the whole one |
| `Item.ItemId` | item.c:315-346 | 0 or 404; 0 exactly when the segment exists and spells a 32-character identifier, which is then the one written into the buffer |
| `Item.FileFetch` | cache/file.c:30-103 | 404 exactly for an identifier not 32 long or a file that does not open; 200 exactly when the file parses, adding its statements; 500 on a read or parse error, adding nothing |
| `Item.Primary` | item.c:67-78 | exactly one primary source: S3 with a bucket, else the file cache with a path, else SPARQL |
| `Item.RetrieveStatus` | item.c:67-89 | the database's status when it was asked (primary not 200 and a database configured), the primary's otherwise |
| `Item.Retrieve` | item.c:67-89 | the status is the database's when it was asked, the primary's otherwise; the model is `Retrieved`: the primary's statements appended, then the database's when it was asked |
| `Item.Relabel` | item.c:188-189 | every statement of the abstract context is restated in the graph's context, and nothing else |
| `Item.MigratedSpec` | item.c:184-192 | after migration the abstract context is empty, its statements are in the graph's context, and other contexts are unchanged |
| `Item.Migrate` | item.c:184-194 | the model becomes the migrated one |
| `Item.HasPrefixFromList` | item.c:273-283 | true exactly when some list entry is a prefix of the string |
| `Item.Whitelisted` | item.c:198-220 | without `allow` every statement stays; with it, a statement stays exactly when it is in the default graph or some entry prefixes its context |
| `Item.EmptyEntryKeepsAll` | item.c:277-277 | an empty `allow` entry keeps every statement |
| `Item.Whitelist` | item.c:198-220 | the model after stripping has exactly the whitelisted statements |
| `Item.FlipsSpec` | item.c:245-265 | each `?s owl:sameAs <subject>` with `?s` a resource gains its converse in its own context, and only such converses are added |
| `Item.FlipsMembers` | item.c:250-251 | the flips depend only on the statements of the model, not on their order |
| `Item.FlipTwice` | item.c:245-265 | flipping an already flipped model adds nothing |
| `Item.Flip` | item.c:245-269 | the model gains exactly the flipped statements; nothing is removed |
| `Item.Postprocess` | item.c:163-270 | always 200; the statements are those of `Processed`: migrated out of the abstract graph, whitelisted by the `allow` parameters, then with the flipped statements added |
| `Item.IsCollection` | item.c:286-311 | true exactly when the model says, in any context, that the subject is a `dcmitype:Collection` |
| `Item.IsCollectionMembers` | item.c:286-311 | whether a subject is a collection depends only on the set of statements |
| `Item.CollectionQuery` | item.c:131-152 | the request's own parameters are echoed; the status is that of the parameter-completed query about the identifier within the subject's collection; its statements are added; on 200 the navigation and OpenSearch statements are present |
| `Item.Related` | item.c:118-160 | the status and new subject are those of the related query, the collection query exactly when the model says the subject is a collection; a plain item keeps the canonical URI and appends exactly the query's statements; a collection adds the navigation and OpenSearch statements on 200; either way the query's statements are in the model; path and fragment never change |
| `Item.Item` | item.c:48-112 | 404 with nothing changed for a bad identifier; the canonical URI gains the identifier and fragment `#id` and the subject is its rendering; a failed retrieval returns its status with the retrieved model; after retrieval the model holds the post-processed statements; a failed membership check returns its status with exactly those; otherwise the status and subject are those of the related query for the post-processed model, and that query's statements are in the model; a 200 means every step succeeded and the concrete statements are present |
| `Item.Serve` | item.c:90-111 | post-processing, membership, the related query and the concrete statements in turn, with the results stated for `Item.Item` |
| `Item.Complete` | item.c:100-111 | the related query's status and subject; the related query's statements are added; a 200 means the concrete statements are present |
| `Item.Lookup` | item.c:36-44 | the target becomes the `uri` parameter; the database lookup decides when a database is configured, SPARQL otherwise |
| `Index.Index` | index.c:28-59 | the fragment is cleared and the parameters echoed; the title becomes "Everything" only when unset; the status is that of executing the index query completed from the parameters; its statements are added and a failure stops there; on 200 the navigation, OpenSearch and concrete statements are present |
| `Index.Titled` | index.c:40-56 | the title rule, then the query and its sequel with the results stated for `Index.Index` |
| `Index.Respond` | index.c:44-56 | the execution's status; its statements are added; on 200 the navigation, OpenSearch and concrete statements are present |
| `Index.Describe` | index.c:47-56 | always 200; the navigation, OpenSearch and concrete statements are added |
| `Index.Publish` | index.c:49-56 | always 200; the model gains exactly the OpenSearch statements, then the concrete ones |
| `Update.HexDigits` | twine/update.c:292-307 | the kept characters are lower-case hexadecimal digits, no more than the input has |
| `Update.HexDigitsAppend` | twine/update.c:292-307 | the digits of a concatenation are those of its parts, in order |
| `Update.ParseIdentifier` | twine/update.c:279-358 | input of hexadecimal digits and hyphens with exactly 32 digits, ending in its last digit, becomes root, one '/', the lower-case digits and `#id`; anything else is returned as it is |
| `Update.NotUuid` | twine/update.c:303-306 | a character that is neither a hexadecimal digit nor a hyphen rules a UUID out |
| `Update.TrailingNotUuid` | twine/update.c:292-309 | anything after the 32nd digit, a hyphen included, rules a UUID out |
| `Update.ParseOfUuid` | twine/update.c:292-309 | 32 lower-case hexadecimal digits are a UUID and map to themselves |
| `Update.ModeOf` | twine/update.c:64-85 | the mode is moved, updated or refreshed exactly for those flag words, none otherwise |
| `Update.ParseMessage` | twine/update.c:48-68 | the identifier read from a message is at most 1024 characters and holds no space, newline or NUL |
| `Update.ParseMessageRoundTrip` | twine/update.c:48-68 | a message built as identifier, space, flag reads back as that identifier and flag |
| `Update.ParseMessageBare` | twine/update.c:64-68 | a message with no space has no flag |
| `Update.ProcessUri` | twine/update.c:36-126 | the cache update runs on the parsed identifier, tracking references only for `moved`; the reference set is updated only when that update returned 0 and it holds more than one item |
| `Update.Hex32` | twine/update.c:242-251 | at most 32 digits are kept from a database identifier |
| `Update.RowUri` | twine/update.c:227-258 | the URI built for a row is the slashed root, the first 32 digits and `#id` |
| `Update.RowUriFits` | twine/update.c:181-182 | that URI fits the buffer allocated for it |
| `Update.UpdateAll` | twine/update.c:173-274 | a failed database query gives -1; otherwise rows are rebuilt in order, stopping with -1 at a missing or over-long identifier or at the first failing update |
| `Update.UpdateOne` | twine/update.c:135-169 | "all" in any case rebuilds everything with a database and gives -1 without one; any other identifier is parsed and its cache entry rebuilt |

## Left out

- db/db.c (database connection, schema version, log callbacks) is not part of this model: it is connection plumbing and logging.
- cache/file.c is modelled through its outcomes only: opening, reading and N-Quads parsing are an oracle over the file name. Allocation failures, which give 500 there, are not modelled.
- The rule-base block of `patchwork_item_postprocess_` (item.c:225-242) is left out because it calls a foreign library. Its -1 return is left out with it.
- The back-end executors, fetchers, lookups and membership check are declared in p_patchwork.h (lines 176-213) and implemented in back-end files that are not part of this model; `spindle_cache_update` and `spindle_cache_update_set` are implemented in libspindle. All are modelled as function values, and nothing is assumed about what they return.
- URI rendering (`quilt_canon_str`) and URI parsing (`uri_create_str`, `uri_info`) are left out. A rendering is an uninterpreted function of the canonical record and the form, and a cache URI is given already parsed.
- The framework's parameter store and canonical-URI builder (libquilt) are not part of this model. `SetParam`, `SetParamMulti`, `AddParam`, `GetParam` and `GetParamMulti` are modelled on a map from names to value lists. The relative order of different parameter names in the canonical URI is not modelled.
- The aws_s3 client setup (endpoint, access key, secret), logging, `librdf_model_print` and the `free`/`malloc` bookkeeping are left out, including `patchwork_query_free`. Allocation failures are not modelled anywhere.
- `Update.ParseIdentifier`: the branch where the buffer cannot be allocated, which returns NULL and makes `spindle_process_uri` return -1, is not modelled. Identifier parsing always succeeds in the model.
- Integers are unbounded. Overflow of `int` offsets, limits and lengths is not modelled, and neither are NUL bytes inside strings other than update messages.
- `Item.ItemId`: a segment with more than 35 alphanumerics overruns the 36-byte buffer of `patchwork_item` (item.c:51). That is undefined behaviour, and the model gives 404 for it, which is what the length check would give.
- `Item.Flip` and `Item.Whitelist` iterate over a snapshot of the model taken when the iteration starts. Statements added or removed during the iteration are not revisited, and librdf's iterator semantics under modification are not modelled.
- `Item.Flip`: a matching statement in the default graph has no context. The model adds its converse to the default graph, and the NULL context node the code would render is not modelled.
- `patchwork_home` (declared at p_patchwork.h:160), the dynamic endpoints (p_patchwork.h:148-153), and the S3, SPARQL and database handlers are implemented in files that are not part of this model. The dispatcher's routes name them without modelling them.
- `Plugin.State.Init`: the engine registration, the database connection and the S3 bucket creation are given as booleans. The configuration scan is given as the list of key-value pairs it visits.
- `Update.ParseMessage`: a message is a string of characters, one per byte. The 1024 cap counts characters, and a message holding multi-byte UTF-8 text is not modelled byte by byte.
- `Item.FileFetch`: the 32-character length check of cache/file.c counts characters where the code counts bytes. The identifiers `Item.ItemId` produces are ASCII, so the two agree on every identifier the model passes in.
- `Query.FirstLabel` and `Query.SubjTitle`: "first" means first in the order of the `model` sequence. librdf's statement stream is assumed to return statements in the order they were added, which librdf does not promise.
- The `aboutmode` field (p_patchwork.h:119) is never set anywhere in patchwork. It stays 0.
