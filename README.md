# OData query-URL builder and CSDL metadata walker, in Dafny

This project models the two core services of Toast, a tool that tests OData services:

- `UrlGenerator` (src/Services/UrlGenerator.cs) builds query URLs. Each URL is the base URL, a `?`, and system query options joined with `&`. The options are `$filter`, `$select`, `$orderby`, `$top`, `$skip`, `$expand` and the lambda `any` form, from section 5.1 of OData Version 4.0 Part 2 (URL Conventions). `$apply` comes from the OData Data Aggregation extension. Arguments are inserted verbatim, with no percent-encoding.
- `MetadataService` (src/Services/MetadataService.cs) walks a CSDL metadata document. It matches elements by exact expanded name in the namespace `http://docs.oasis-open.org/odata/ns/edm` and builds the `Entity`, `Property`, `NavigationProperty` and `Relationship` records of src/Models/Metadata.cs. It also lists the query options that every entity property suggests.

Files:

- `results.dfy` (module `Results`): `Option` stands for a C# reference that may be null. `Result` stands for a call that may throw.
- `text.dfy` (module `Text`): `string.Join`, a split that inverts it, and the decimal rendering of an `int` with its parser.
- `url_generator.dfy` (module `UrlGenerator`): all 24 public methods of `UrlGenerator` as functions.
  - Each builder is proved equal to `ApplyQueryOptions` over a fixed option list, or to the builder it duplicates.
  - `ApplyQueryOptions` is proved to round-trip through a reader of query strings.
- `xml.dfy` (module `Xml`): the parsed XML tree, plus the LINQ to XML queries the walker uses as functions. These are `Descendants` in document order, `Elements`, `Element` and `Attribute`.
- `models.dfy` (module `Models`): the metadata records.
- `metadata_service.dfy` (module `MetadataService`): `ParseMetadata` and `ExtractQueryOptions` are methods with loops.
  - Each method is proved equal to a specification function. That function stops at the first failure in the source's evaluation order.
  - A declarative description of the result is proved equivalent to that function.

## Model

| member | source | states |
|---|---|---|
| `UrlGenerator.GenerateBaseUrl` | src/Services/UrlGenerator.cs:8-11 | the result is the service URL, one `/`, then the entity name; no slash is added or removed, so both parts can be recovered |
| `UrlGenerator.ApplyQueryOptions` | src/Services/UrlGenerator.cs:13-17 | the result starts with `baseUrl?`; an empty option list gives exactly `baseUrl?` |
| `UrlGenerator.ApplyQueryOptionsRoundTrip` | src/Services/UrlGenerator.cs:13-17 | reading the options back from the URL gives exactly the list supplied, in the same order and with duplicates kept, provided no key holds `=` or `&` and no value holds `&` |
| `UrlGenerator.ApplyQueryOptionsAppend` | src/Services/UrlGenerator.cs:15-16 | for two non-empty option lists, the options of both are the first list's `k=v` items, one `&`, then the second list's items: order is kept and nothing is re-sorted (with an empty list there is no extra `&`) |
| `UrlGenerator.AmpersandInValueIsNotPreserved` | src/Services/UrlGenerator.cs:13-17 | with no escaping, for every base URL, key and value holding `&`, the one-option URL does not read back as that option |
| `UrlGenerator.FilterByNameWithAmpersand` | src/Services/UrlGenerator.cs:29-32 | for every name holding `&`, the name filter does not read back as `$filter=name eq '{name}'` |
| `Text.SplitJoin` | src/Services/UrlGenerator.cs:15 | for a non-empty list of items none of which holds `&`, splitting the joined items at `&` gives back the items (an empty list joins to `""`, which splits into one empty item) |
| `Text.IntToDecimalRoundTrip` | src/Services/UrlGenerator.cs:59-67 | an `int` is rendered as an optional `-` (exactly when it is negative) followed by digits only, and reads back to the same number |
| `UrlGenerator.GenerateNestedFilterUrl` | src/Services/UrlGenerator.cs:19-22 | equals `ApplyQueryOptions` with the single option `("$filter", nestedFilter)` |
| `UrlGenerator.GenerateFilterByIdUrl` | src/Services/UrlGenerator.cs:24-27 | equals the nested-filter URL for `id eq '{id}'`, with the id inserted verbatim between quotes |
| `UrlGenerator.GenerateFilterByNameUrl` | src/Services/UrlGenerator.cs:29-32 | equals the nested-filter URL for `name eq '{name}'`, with the name inserted verbatim |
| `UrlGenerator.GenerateFilterByDateOfBirthUrl` | src/Services/UrlGenerator.cs:34-37 | equals the nested-filter URL for `dob eq {dob}`, with the date unquoted |
| `UrlGenerator.GenerateFilterByDateRangeUrl` | src/Services/UrlGenerator.cs:39-42 | equals the nested-filter URL for `dob ge {start} and dob le {end}`, with both dates unquoted |
| `UrlGenerator.GenerateSelectSpecificPropertiesUrl` | src/Services/UrlGenerator.cs:44-47 | equals `ApplyQueryOptions` with the single option `("$select", properties)` |
| `UrlGenerator.GenerateOrderByUrl` | src/Services/UrlGenerator.cs:49-52 | equals `ApplyQueryOptions` with the single option `("$orderby", property)` |
| `UrlGenerator.GenerateOrderByDescendingUrl` | src/Services/UrlGenerator.cs:54-57 | equals `ApplyQueryOptions` with `("$orderby", property + " desc")`, which is the ascending URL followed by ` desc` |
| `UrlGenerator.GenerateTopUrl` | src/Services/UrlGenerator.cs:59-62 | equals `ApplyQueryOptions` with `("$top", decimal of top)` |
| `UrlGenerator.GenerateSkipUrl` | src/Services/UrlGenerator.cs:64-67 | equals `ApplyQueryOptions` with `("$skip", decimal of skip)` |
| `UrlGenerator.GenerateTopAfterSkipUrl` | src/Services/UrlGenerator.cs:69-72 | equals `ApplyQueryOptions` over `[$skip, $top]` in that order: skip comes before top |
| `UrlGenerator.GenerateFilterAndSelectUrl` | src/Services/UrlGenerator.cs:74-77 | equals `ApplyQueryOptions` over `[$filter, $select]`: filter comes before select |
| `UrlGenerator.GenerateFilterOrderByAndTopUrl` | src/Services/UrlGenerator.cs:79-82 | equals `ApplyQueryOptions` over `[$filter, $orderby, $top]` in that order |
| `UrlGenerator.GenerateSelectAndOrderByUrl` | src/Services/UrlGenerator.cs:84-87 | equals `ApplyQueryOptions` over `[$select, $orderby]`: select comes before orderby |
| `UrlGenerator.GenerateApplyAggregationsUrl` | src/Services/UrlGenerator.cs:89-92 | equals `ApplyQueryOptions` with the single option `("$apply", apply)` |
| `UrlGenerator.GenerateExpandUrl` | src/Services/UrlGenerator.cs:94-97 | equals `ApplyQueryOptions` with the single option `("$expand", expand)` |
| `UrlGenerator.GenerateExpandWithSelectUrl` | src/Services/UrlGenerator.cs:99-102 | equals the expand URL for `{expand}($select={select})`: the nested option is written into the expand value |
| `UrlGenerator.GenerateExpandWithFilterUrl` | src/Services/UrlGenerator.cs:104-107 | equals the expand URL for `{expand}($filter={filter})` |
| `UrlGenerator.GenerateRecursiveExpandUrl` | src/Services/UrlGenerator.cs:109-112 | equals `GenerateExpandUrl` for every input |
| `UrlGenerator.GenerateRecursiveExpandWithSelectUrl` | src/Services/UrlGenerator.cs:114-117 | equals `GenerateExpandWithSelectUrl` for every input |
| `UrlGenerator.GenerateNestedFilterWithCollectionUrl` | src/Services/UrlGenerator.cs:119-122 | equals the multiple-conditions URL with the condition prefixed by the lambda variable `a/` |
| `UrlGenerator.GenerateNestedFilterWithMultipleConditionsUrl` | src/Services/UrlGenerator.cs:124-127 | equals the nested-filter URL for `{collection}/any(a: {conditions})`, with the conditions inserted unchanged |
| `Xml.Attribute` | src/Services/MetadataService.cs:31 | the lookup gives `None` exactly when no attribute has that local name in no namespace; otherwise it gives the value of such an attribute |
| `Xml.Element` | src/Services/MetadataService.cs:67 | the first matching child, or `None` exactly when there is none |
| `Xml.NamedMembers` | src/Services/MetadataService.cs:27 | the name filter keeps exactly the elements with that expanded name |
| `Xml.NamedAppend` | src/Services/MetadataService.cs:27 | the filter keeps document order: filtering a concatenation filters each part |
| `Xml.SubtreeMembers` | src/Services/MetadataService.cs:27 | `Descendants` reaches the root and every element at any depth below it, and nothing else |
| `MetadataService.RequiredAttribute` | src/Services/MetadataService.cs:41-42 | `.Value` succeeds exactly when the attribute is present, and then gives its value |
| `MetadataService.ParseEntityType` | src/Services/MetadataService.cs:29-56 | the loops over `Property` and `NavigationProperty` children compute `EntityResult`, including its first failure |
| `MetadataService.ParseAssociation` | src/Services/MetadataService.cs:64-69 | computes `RelationshipResult`: the name, then the first `End`'s type, then the last `End`'s type |
| `MetadataService.ParseMetadata` | src/Services/MetadataService.cs:21-74 | the loops over `EntityType` and `Association` elements compute `MetadataResult`, with both lists starting empty |
| `MetadataService.ExtractQueryOptions` | src/Services/MetadataService.cs:76-94 | the nested loops compute `QueryOptionsResult`: the options of every `EntityType` in document order, or the first missing `Name` |
| `MetadataService.ExtractEntityQueryOptions` | src/Services/MetadataService.cs:84-89 | the inner loop over one `EntityType`'s `Property` children computes `EntityQueryOptionsResult`: three options per property name in order, or the error of the first property without a `Name` |
| `MetadataService.MapResultFailsAt` | src/Services/MetadataService.cs:27-58 | the first element that fails makes the whole walk fail with its error, so there is no partial result |
| `MetadataService.MetadataResultSucceeds` | src/Services/MetadataService.cs:27-71 | the parse succeeds exactly when every `EntityType` has a `Name`, every `Property`/`NavigationProperty` child of it has a `Name` and a `Type`, and every `Association` has a `Name`, at least one `End`, and a `Type` on its first and its last `End` |
| `MetadataService.MetadataResultMeaning` | src/Services/MetadataService.cs:27-71 | the parse gives `m` exactly when `m` holds one entity per `{edm}EntityType` in document order and one relationship per `{edm}Association`, with no top-level properties |
| `MetadataService.EntityResultMeaning` | src/Services/MetadataService.cs:29-56 | an entity is built exactly when its element parses; it is the entity whose name, properties and navigation properties are the element's own, copied verbatim and in order |
| `MetadataService.PropertiesMeaning` | src/Services/MetadataService.cs:37-45 | the property list holds exactly the direct `{edm}Property` children's names and types, in order; nested elements such as `Key/PropertyRef` are not counted |
| `MetadataService.NavigationPropertiesMeaning` | src/Services/MetadataService.cs:48-56 | the navigation-property list holds exactly the direct `{edm}NavigationProperty` children's names and types, in order |
| `MetadataService.RelationshipResultMeaning` | src/Services/MetadataService.cs:64-69 | a relationship is its name, the type of the first `End` and the type of the last `End`, so a single `End` gives the same from and to type; no `End`, or a missing attribute, fails |
| `MetadataService.EntitiesIgnoreAssociations` | src/Services/MetadataService.cs:27-59 | for two documents that both parse, the same `EntityType` elements give the same entities, whatever their associations |
| `MetadataService.EntityTypesAreExactlyEdm` | src/Services/MetadataService.cs:27 | an element becomes an entity exactly when it lies in the document and is named `EntityType` in the CSDL namespace; the same local name in another namespace is ignored |
| `MetadataService.QueryOptionsForNamesShape` | src/Services/MetadataService.cs:87-89 | three options per property name, in order: the k-th option is option k mod 3 (`$filter={n} eq 'value'`, `$select={n}`, `$orderby={n}`) of name k / 3 |
| `MetadataService.QueryOptionsResultSucceeds` | src/Services/MetadataService.cs:82-90 | the extraction fails exactly when some `Property` child of some `EntityType` has no `Name`; types, entity names and navigation properties are never read |
| `MetadataService.QueryOptionsAgreeWithParse` | src/Services/MetadataService.cs:84-89 | when the document parses, the options are the three options of each property of the parsed entities, entity after entity |
| `MetadataService.Add` | src/Services/MetadataService.cs:58 | `List.Add` fails exactly on a null list, and otherwise appends the item |
| `MetadataService.ParseMetadataAsWritten` | src/Services/MetadataService.cs:21-74 | `ParseMetadata` as written, over `new Metadata()` whose lists are null (src/Models/Metadata.cs:7-9): on success nothing was ever added, so the lists are still null; with at least one `EntityType`, the result is that element's parse error or else the null-list failure of the first `Entities.Add`. `AsWrittenFailsOnEveryEntityType` gives its meaning over all documents |
| `MetadataService.AsWrittenFailsOnEveryEntityType` | src/Models/Metadata.cs:7-9 | with the lists uninitialised, the parse as written succeeds exactly on documents with no `EntityType` and no `Association` |
| `MetadataService.PersonDocumentParses` | tests/MetadataServiceTests.cs:28-57 | the test document parses to one entity `Person` with the properties `ID` and `Name` and the navigation property `Address` |
| `MetadataService.PersonDocumentQueryOptions` | tests/MetadataServiceTests.cs:60-91 | the test document's query options are the three options of `ID`, then those of `Name` |
| `MetadataService.PersonDocumentFailsAsWritten` | src/Services/MetadataService.cs:58 | as written, the test document fails at the first `Entities.Add` |
| `MetadataService.DocumentWithoutEntityTypesParses` | tests/MetadataServiceTests.cs:94-102 | `<invalid></invalid>` parses to metadata with no entities and no relationships; the code has no check that would throw the exception the test expects |

## Findings

| source | as written | input that shows it | evidently intended | confidence | as-written member | corrected member |
|---|---|---|---|---|---|---|
| src/Models/Metadata.cs:7-9 | `Entities`, `Properties` and `Relationships` have no initialiser. So `metadata.Entities.Add` (src/Services/MetadataService.cs:58) and `metadata.Relationships.Add` (line 70) throw a NullReferenceException on the first entity or association | the `Person` document of tests/MetadataServiceTests.cs:31-45 | the lists start empty, and that document parses to one entity `Person` with two properties and one navigation property | not executed | `MetadataService.PersonDocumentFailsAsWritten` (from `MetadataService.AsWrittenFailsOnEveryEntityType` about `MetadataService.ParseMetadataAsWritten`) | `MetadataService.PersonDocumentParses` (about `MetadataService.ParseMetadata`, whose lists start empty) |

## Left out

- `FetchMetadataAsync` (src/Services/MetadataService.cs:12-19) is left out because it is network I/O. Only its `serviceUrl + "/$metadata"` concatenation is pure.
- `XDocument.Parse` (src/Services/MetadataService.cs:24, 79) is not modelled. Both operations take an already-parsed element tree, so malformed XML is not represented.
- Text, comment and processing-instruction nodes are left out of the tree because the element and attribute queries never see them.
- src/Services/TestRunner.cs is not part of this model. It is an HTTP request plus a status check.
- The C# objects (`Metadata`, `Entity`, ...) are modelled as values. They are created fresh by one parse and never shared, so aliasing cannot arise.
- All failures are one exception type in C#: a NullReferenceException for a missing attribute, a missing `End` or a null list. The model labels which of the three it was.
- The code has no explicit check for empty input. Empty or null text fails inside `XDocument.Parse`, which is left out (see above), so the model, which starts from a root element, never sees it. A document with no `EntityType` is accepted, by the code and by the model.
- ComplexType, EntityContainer/EntitySet and NavigationPropertyBinding elements are not extracted by the code, so the model ignores them.
- `Metadata.Properties` is never populated: it is empty in `ParseMetadata` and null (`None`) in `ParseMetadataAsWritten`.
- These test expectations are not modelled because the code lacks the behaviour:
  - `AutogenerateUrlsFromMetadata`;
  - the `ArgumentException` validation;
  - JSON payload checks;
  - a two-argument `GenerateRecursiveExpandWithSelectUrl`.
- `ApplyQueryOptions` takes the dictionary as a list of pairs in iteration order. The model does not require the keys to be distinct, which a C# dictionary guarantees.
- String arguments are never null in the model. C# interpolation would render a null argument as empty text.
- `ApplyQueryOptions` with a null dictionary throws an ArgumentNullException from `Select` (src/Services/UrlGenerator.cs:15). The model's option list is a sequence, which cannot be null, so this failure is not represented.
- C# strings are sequences of UTF-16 code units and may hold lone surrogates. A Dafny `char` is a Unicode scalar value, so strings with lone surrogates are not represented.
- `int` arguments are rendered with `-` as the negative sign. A culture whose `NegativeSign` differs is not modelled.
