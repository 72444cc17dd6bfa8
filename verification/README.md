# Core data selectors: a Dafny model

This project models the read layer of the block editor's client-side data cache
(`core-data/selectors.js`). The store keeps a plain state tree with these parts:

- taxonomy terms, by taxonomy;
- users, as `byId` plus per-query id lists (`queries`);
- generic entity records, by kind, name and key;
- theme support flags;
- embed previews, by URL.

The selectors are side-effect-free reads over that tree. In the model every selector is a
Dafny function of an immutable `State` value, so no selector can change the state. The
unit tests make the same point by running the selectors on deep-frozen trees.

Files:

- `wrappers.dfy`: the `Option` type. `None` plays the role of JavaScript's `undefined`.
- `js_values.dfy`: JavaScript values. A plain object is its list of own properties in
  enumeration order. This lets reads of own properties (`Get`), `Object.keys` (`Keys`) and
  `Object.values` (`Values`) be stated exactly for own properties; inherited properties are
  not modelled. The ghost `AsMap` is the object seen as a
  dictionary, and it is the reference the lemmas measure those operations against.
- `selectors.dfy`: the state tree and the selectors, with their lemmas.
- `selector_scenarios.dfy`: the unit tests' concrete state trees, with what each selector
  returns on them.

Design decisions:

- Entity buckets (`byKey`) and preview payloads are ordered property lists. The order in
  which `Object.values` returns records is observable: the test at
  `core-data/test/selectors.js:127-130` expects `post` before `page`.
- Tables the selectors only look up are Dafny maps: `terms`, `users.byId`,
  `users.queries`, `embedPreviews`, and the kind and name levels of `entities`.
- `getEntityRecord` and `getEntityRecords` read `state.entities[kind][name]` without a
  guard, and JavaScript throws when that bucket is missing. Their models require the
  bucket to exist (`HasEntity`). The reducer's initial state creates one bucket per
  defined entity.
- `isRequestingTerms` and `isRequestingCategories` consult only the registry's
  `isResolving`. It is passed in as a function (`ResolutionTracker`). The store key
  `"core"` is the value the unit tests' mock checks for; `core-data/index.js`, which
  defines it, is not part of this model.

## Model

| member | source | states |
|---|---|---|
| `CoreDataSelectors.GetTerms` | core-data/selectors.js:38-40 | the result is undefined exactly when the taxonomy was never received, and otherwise it is the stored term list |
| `CoreDataSelectors.GetCategories` | core-data/selectors.js:49-51 | undefined exactly when no "categories" terms were received, otherwise the stored categories list |
| `CoreDataSelectors.IsRequestingTerms` | core-data/selectors.js:62-64 | the result is the tracker's answer for store `"core"`, selector `"getTerms"` and the taxonomy as the one argument |
| `CoreDataSelectors.IsRequestingCategories` | core-data/selectors.js:74-76 | the result is the tracker's answer for store `"core"`, selector `"getCategories"` and no arguments |
| `CoreDataSelectors.RequestingTermsIgnoresCache` | core-data/selectors.js:62-64 | whether terms are being requested does not depend on the cached state, only on the tracker |
| `CoreDataSelectors.UserById` | core-data/selectors.js:101 | the read `byId[id]` is undefined exactly when no user is stored under `id`, otherwise it is that user |
| `CoreDataSelectors.GetThemeSupports` | core-data/selectors.js:145-147 | the theme support flags are returned exactly as stored |
| `CoreDataSelectors.LinkOnlyHtml` | core-data/selectors.js:164 | the link-only anchor is twice as long as the URL plus 15 characters of fixed markup |
| `CoreDataSelectors.LinkOnlyHtmlShape` | core-data/selectors.js:164 | the anchor is `<a href="`, the URL, `">`, the URL again and `</a>`, at fixed positions |
| `CoreDataSelectors.MapIdsToUsers` | core-data/selectors.js:101 | lodash `map` over the id list gives one entry per id, in the same order; entry i is `byId[ids[i]]`, undefined when `byId` lacks that id |
| `CoreDataSelectors.GetUserQueryResults` | core-data/selectors.js:97-102 | an unknown query gives `[]`; a known query gives a list as long as its id list, whose entry i is the user stored for the i-th id |
| `CoreDataSelectors.GetAuthors` | core-data/selectors.js:85-87 | the `"authors"` query: `[]` when that query is absent, otherwise entry i is the user stored for the i-th author id |
| `CoreDataSelectors.MapIdsToUsersConcat` | core-data/selectors.js:99-101 | order is preserved: the users for ids `a + b` are the users for `a` followed by the users for `b` |
| `CoreDataSelectors.UserQueryResolvedIff` | core-data/selectors.js:99-101 | every entry of a query's result is a stored user if and only if every id of the query has a record in `byId` |
| `CoreDataSelectors.UserQueryResultsDependOnlyOnQueryAndById` | core-data/selectors.js:103 | two states that agree on the query's id list and on `byId` give the same result, which is what the memoisation key relies on |
| `CoreDataSelectors.GetEntityRecord` | core-data/selectors.js:116-118 | given the (kind, name) bucket, the result is undefined exactly when no record has that key; otherwise it is the record stored under that key |
| `CoreDataSelectors.EntityRecordAgreesWithMap` | core-data/selectors.js:116-118 | `getEntityRecord` agrees with the bucket read as a dictionary from key to record |
| `CoreDataSelectors.GetEntityRecords` | core-data/selectors.js:129-132 | `Object.values` of the bucket: one element per stored property, in enumeration order; element i is the i-th property's record |
| `CoreDataSelectors.EntityRecordsAreStoredRecords` | core-data/selectors.js:129-132 | in a well-formed state (no bucket repeats a key): one record per key; element i is what `getEntityRecord` returns for the i-th key; a value is returned iff some key maps to it; the result is `[]` iff the bucket is empty |
| `CoreDataSelectors.EntityRecordsDependOnlyOnByKey` | core-data/selectors.js:133-135 | two states with the same `byKey` for (kind, name) give the same records, which is what the memoisation key relies on |
| `CoreDataSelectors.LinkOnlyHtmlInjective` | core-data/selectors.js:164 | the link-only anchor `<a href="URL">URL</a>` determines its URL, so different URLs never share it |
| `CoreDataSelectors.GetPreview` | core-data/selectors.js:157-172 | Unfetched exactly when nothing is stored for the URL; NotEmbeddable exactly when the stored `html` is a string equal to `<a href="URL">URL</a>`; otherwise the stored preview unchanged |
| `CoreDataSelectors.PreviewWithoutHtmlIsEmbedded` | core-data/selectors.js:166-171 | a stored preview without an `html` property, such as `{data: 42}`, is returned unchanged |
| `CoreDataSelectors.NonStringHtmlIsEmbedded` | core-data/selectors.js:166 | an `html` that is not a string never equals the anchor under strict equality, so the preview is returned unchanged |
| `CoreDataSelectors.NotEmbeddableOnlyForItsOwnUrl` | core-data/selectors.js:164-169 | a payload that makes one URL unembeddable is returned unchanged when stored under any other URL |
| `JsValues.Get` | core-data/selectors.js:117 | a read of an own property is undefined exactly when the object has no own property of that name; otherwise it returns a property the object stores under that name |
| `JsValues.Values` | core-data/selectors.js:131 | `Object.values` has one element per property, and element i is the i-th property's value |
| `JsValues.GetAgreesWithMap` | core-data/selectors.js:117 | a property read agrees with the dictionary view of the object |
| `JsValues.GetAt` | core-data/selectors.js:117 | with distinct names, reading the i-th property's name returns the i-th property's value |
| `JsValues.AsMapSize` | core-data/selectors.js:131 | with distinct names, the dictionary view has exactly one entry per property |
| `SelectorScenarios.TermsScenario` | core-data/test/selectors.js:17-30 | categories are undefined in an empty tree, and once received they read back as `[{id: 1}]` |
| `SelectorScenarios.RequestingCategoriesScenario` | core-data/test/selectors.js:33-68 | with a tracker like the tests' mock (one the lemma defines itself), `isRequestingCategories` is true exactly while categories resolution is in flight, and `isRequestingTerms` asks about a different selector; this pins only the store key `"core"` and the selector names |
| `SelectorScenarios.EntityRecordScenario` | core-data/test/selectors.js:70-97 | an unknown key reads as undefined, and the stored `{slug: 'post'}` reads back under `post` |
| `SelectorScenarios.EntityRecordsScenario` | core-data/test/selectors.js:100-131 | an empty bucket gives `[]`, and the `post`/`page` bucket gives both records in that order |
| `SelectorScenarios.PreviewScenario` | core-data/test/selectors.js:135-147 | an empty tree gives undefined, and `{data: 42}` is returned unchanged |
| `SelectorScenarios.LinkOnlyHtmlForUrl` | core-data/selectors.js:164 | the anchor built for `http://example.com/` is exactly the literal markup the test stores |
| `SelectorScenarios.LinkOnlyPreviewScenario` | core-data/test/selectors.js:149-156 | a preview whose html is a bare link to `http://example.com/` gives `false` |
| `JsValues.ValueInValuesIff` | core-data/selectors.js:131 | with distinct names, a value is among `Object.values` if and only if some property name reads it |

## Left out

- Memoisation by `rememo`'s `createSelector` (core-data/selectors.js:97-104, 129-136) is reference-identity caching. It has no counterpart for Dafny values. Only the inner computations are modelled. The two `DependOnly` lemmas show that the cache keys cover every input the results depend on.
- `isResolving` (core-data/selectors.js:26-28) calls into the external data registry. The tracker is a function parameter, and the registry itself is not modelled.
- GetPreview: the stored preview is always an object, so the `!preview` branch (core-data/selectors.js:160-161) fires only when nothing is stored. A stored falsy non-object value (`null`, `false`, `0`, `""`), which JavaScript would return as is, is not representable.
- GetEntityRecord: keys are strings. A numeric key is coerced to a string by JavaScript before the property read, and that coercion is not modelled.
- GetEntityRecords: the enumeration order is the stored order of properties. JavaScript enumerates integer-like keys first, in ascending order, and that rule is not modelled.
- GetEntityRecord, GetEntityRecords: a missing (kind, name) bucket makes JavaScript throw (core-data/selectors.js:117, 131, 134). Both models require the bucket instead of modelling the exception.
- GetThemeSupports: a passthrough of `state.themeSupports`; its contract can only say that the stored flags are returned.
- The reducers (core-data/reducer.js) are not modelled; the scenario states are the trees the selector tests build.
- Values: numbers are unbounded integers rather than JavaScript's double-precision floats, and a property whose value is `undefined` cannot be represented. No selector computes on or branches over these values; `getPreview` only compares `html` with a string.
- GetTerms, GetEntityRecord, GetPreview: JavaScript property reads also follow the prototype chain, so a key such as `constructor` or `toString` finds an inherited value (`state.terms['constructor']` is `Object`; `getPreview(state, 'toString')` returns a function). The model reads own properties only and gives undefined (`None`, `Unfetched`) for such keys.
- User ids are unbounded integers. JavaScript's coercion of ids to property names is not modelled.
