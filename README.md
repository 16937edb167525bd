# Deterministic rules of the "does it exist" app-idea checker

The application checks whether an app idea already exists. It asks a language model, a web-search API, a MongoDB collection and a three.js globe for help. Around those services sit a few small deterministic rules, and this project models them in Dafny and proves their properties:

- **Globe classification fallback** (`GET /api/globe-data`). A missing or empty `query` is refused with 400 "Query parameter is required". Otherwise the model's parsed reply has each empty country-code bucket replaced by a fixed default: `US` for existing, `GB` for potential, `CN` for challenging. An unusable reply gives 500 "Failed to generate globe data". The route in `globe_data.dfy` keeps the in-place form. A `ParsedReply` object has its bucket fields reassigned, and the pure `Normalize` function specifies that rewrite.
- **Country colouring** (`GlobeVisualization`). The component has a static table of ten country bounding boxes. The test is an inclusive rectangle test, and an unknown code never matches. `Find` models `Array.prototype.find`, and `Truthy` models JavaScript truthiness of its result. Each vertex gets one colour by strict priority: existing is red `0xff0000`, then potential is green `0x00ff00`, then challenging is yellow `0xffff00`, and otherwise it stays grey `0xcccccc`. A loop fills a colour array with three entries per vertex.
- **Idea popularity store** (`/api/top-ideas`). `POST` checks `userInput` and then upserts on the app name the model derived: `$inc searches` by 1, and `$setOnInsert` for `idea`, `description`, `category` and `createdAt`. `GET` returns the five most-searched ideas. The store is an `IdeaStore` class over a map from app name to document. The upsert is specified by the `Upserted` function. `TopN` is a selection loop proved against the `IsTopN` predicate.
- **Search page state** (`SearchComponent`). `handleSearch` updates the results and the success state, and keeps a newest-first history capped at five. `handleGlobeVisualization` is refused when no search has succeeded yet. At most the first five results are shown. The page is a `SearchPage` class whose fields are the component's `useState` hooks. Its globe request goes through the same `GlobeData.Get` as the route, so any classification the page holds has no empty bucket (the class invariant).

Inputs the application gets from outside are parameters of the model:
- the language model's replies (`ModelOutcome`, `Option<AppDetails>`);
- the current time (`now`) and the formatted date string;
- the search response (`SearchOutcome`);
- network failures (`GlobeTransport.Unreachable`);
- the saved history read from local storage.

Files: `common.dfy` (Option, Min), `globe_data.dfy`, `globe_visualization.dfy`, `top_ideas.dfy`, `search_component.dfy`.

Two consequences of what the code does:
- The history is capped after each answered search, not as an invariant of the page. The list loaded from local storage is not truncated (`SearchComponent.jsx:22-26`).
- The buckets are lists, so order independence of the colouring is proved as a lemma.

## Model

| member | source | states |
|---|---|---|
| GlobeData.OrDefault | app/api/globe-data/route.js:43-45 | An empty bucket becomes exactly the one-element default list. A non-empty bucket is returned unchanged. The result is never empty. |
| GlobeData.Normalize | app/api/globe-data/route.js:42-45 | After the fallback all three buckets are non-empty. An empty `existing` becomes `['US']`, an empty `potential` becomes `['GB']` and an empty `challenging` becomes `['CN']`. Non-empty buckets are kept as they are. |
| GlobeData.NormalizeIdempotent | app/api/globe-data/route.js:42-45 | Applying the fallback twice gives the same result as applying it once. |
| GlobeData.NormalizeFixedPoints | app/api/globe-data/route.js:43-45 | The fallback leaves a classification unchanged if and only if none of its buckets is empty. |
| GlobeData.NormalizeIndependent | app/api/globe-data/route.js:43-45 | Each bucket's outcome depends only on that bucket. |
| GlobeData.NormalizeExample | app/api/globe-data/route.js:42-45 | `{[], ['IN'], ['FR']}` is normalised to `{['US'], ['IN'], ['FR']}`. |
| GlobeData.ParsedReply.constructor | app/api/globe-data/route.js:40 | The parsed object holds exactly the model's reply. |
| GlobeData.ParsedReply.EnsureEachBucketNonEmpty | app/api/globe-data/route.js:42-45 | The three in-place reassignments leave the object equal to the normalised reply. The `analysis` strings stay untouched. |
| GlobeData.Respond | app/api/globe-data/route.js:6-53 | A missing or empty query gives 400 "Query parameter is required". An unusable reply gives 500 "Failed to generate globe data". Otherwise the answer is 200 with normalised, non-empty buckets and the model's `analysis` unchanged. The answer is 200 exactly when the query is present and the reply parsed. |
| GlobeData.MissingQueryIgnoresModel | app/api/globe-data/route.js:12-15 | With a missing query the answer does not depend on the model's output: the query is refused before the model is used. |
| GlobeData.RespondStable | app/api/globe-data/route.js:40-48 | A successful answer passed through the route again comes back unchanged. |
| GlobeData.Get | app/api/globe-data/route.js:6-53 | The imperative handler, which reassigns an object in place, gives exactly the answer `Respond` specifies. |
| GlobeVisualization.IsPointInCountry | app/components/GlobeVisualization.jsx:160-167 | A match implies the code is in the boundary table. For a known code, the result is true exactly when the point lies in its closed box. |
| GlobeVisualization.BoundariesWellFormed | app/components/GlobeVisualization.jsx:146-158 | Every box in the table has min < max in both latitude and longitude. |
| GlobeVisualization.BoundsInclusive | app/components/GlobeVisualization.jsx:166 | The bounds are inclusive: both corners of a known box match. A point past any edge does not match. |
| GlobeVisualization.UnknownCodeNeverMatches | app/components/GlobeVisualization.jsx:160-165 | A code absent from the table never matches any point. |
| GlobeVisualization.Find | app/components/GlobeVisualization.jsx:43-45 | `find` returns the first code of the bucket whose box holds the point. It returns nothing exactly when no code matches. |
| GlobeVisualization.FindTruthyIffCovers | app/components/GlobeVisualization.jsx:43-53 | The truthiness test on `find`'s result is equivalent to "some code of the bucket matches". |
| GlobeVisualization.VertexColor | app/components/GlobeVisualization.jsx:41-53 | The vertex colour is always one of the four colours: red, green, yellow or the grey default. Which one it is follows from the three `find` results, in the order red, green, yellow (the priority is proved by `ColorPriority`). |
| GlobeVisualization.ColorPriority | app/components/GlobeVisualization.jsx:41-53 | Red exactly when an existing code matches, whatever the other buckets hold. Green exactly when no existing code matches and a potential one does. Yellow exactly when neither of those matches and a challenging code does. The default 0xcccccc exactly when nothing matches. |
| GlobeVisualization.CoversPermutation | app/components/GlobeVisualization.jsx:43-45 | Permuting a bucket does not change whether it contains the point. |
| GlobeVisualization.ColorIgnoresOrder | app/components/GlobeVisualization.jsx:43-45 | Reordering the codes inside any bucket leaves every vertex colour unchanged. |
| GlobeVisualization.Channel | app/components/GlobeVisualization.jsx:55-57 | Each written channel is an 8-bit value of the hex colour. |
| GlobeVisualization.ChannelsDetermineColor | app/components/GlobeVisualization.jsx:55-57 | The three channels written for a vertex rebuild its hex colour, so the buffer encodes the colour without loss. |
| GlobeVisualization.FillColors | app/components/GlobeVisualization.jsx:31-58 | The buffer is a newly allocated array with exactly 3×count entries. Slots 3i, 3i+1 and 3i+2 hold the red, green and blue channels of vertex i's colour, and they depend on nothing but vertex i. |
| TopIdeas.Upserted | app/api/top-ideas/route.js:57-69 | A new app name creates one document with `searches = 1` and this call's `idea`, `description`, `category` and `createdAt`. An existing name has `searches` incremented by exactly 1 and every other field unchanged. Documents under other names are unchanged. The key set gains at most this name. |
| TopIdeas.UpsertMonotone | app/api/top-ideas/route.js:57-69 | An upsert keeps one document per name, each stored under its own name and searched at least once. No counter goes down. |
| TopIdeas.UpsertAllExisting | app/api/top-ideas/route.js:57-69 | k later submissions of a name already present add exactly k to its counter. They touch nothing else. |
| TopIdeas.RepeatedUpserts | app/api/top-ideas/route.js:57-69 | N submissions of one app name into an empty store leave one document with `searches = N`. Its descriptive fields and creation time come from the first submission. |
| TopIdeas.MostSearched | app/api/top-ideas/route.js:30 | The name picked from a non-empty set has the largest `searches` in that set. |
| TopIdeas.IdeaStore.constructor | app/api/top-ideas/route.js:54-55 | The store opens on the persisted collection, whatever documents it already holds, provided each sits under its own app name with at least one search. A fresh deployment starts from the empty map. |
| TopIdeas.IdeaStore.Upsert | app/api/top-ideas/route.js:57-69 | The store afterwards is exactly the upserted map, and one document per name still holds. |
| TopIdeas.IdeaStore.Post | app/api/top-ideas/route.js:40-81 | An unreadable body gives 500 and no write. A missing or empty `userInput` gives 400 "User input is required" and no write. A failed detail generation gives 500 and no write. Otherwise the store is upserted with the derived details and the answer echoes them with "Idea saved successfully". |
| TopIdeas.IdeaStore.TopN | app/api/top-ideas/route.js:30 | Returns min(n, size) stored documents with no name twice, ordered by `searches` non-increasing. No document left out has more searches than any returned one. |
| TopIdeas.IdeaStore.Get | app/api/top-ideas/route.js:24-38 | The read returns at most 5 documents: the top 5 by `searches`, in non-increasing order. |
| SearchComponent.UpdatedHistory | app/components/SearchComponent.jsx:45-46 | The new history has length min(5, previous+1). Its head is the submitted query, and the rest keeps the first entries of the previous history in their order. |
| SearchComponent.HistoryNewestFirst | app/components/SearchComponent.jsx:44-47 | After k ≥ 1 answered searches the history is the first five of (the searches newest first, then the older history). |
| SearchComponent.HistoryForgetsOld | app/components/SearchComponent.jsx:46 | Five or more answered searches push every older entry out. The history is then the last five searches, newest first. |
| SearchComponent.Displayed | app/components/SearchComponent.jsx:126-130 | At most the first five results are shown, as a prefix of the results in their order. Nothing is shown when there are no results. |
| SearchComponent.SearchPage.constructor | app/components/SearchComponent.jsx:11-20 | Every hook starts at its initial value: empty query, empty history, no results, no error, globe closed, no successful query. |
| SearchComponent.SearchPage.LoadSavedSearches | app/components/SearchComponent.jsx:22-26 | The history becomes the saved list, or the empty list when nothing was saved. All other state is unchanged. |
| SearchComponent.SearchPage.SetSearchQuery | app/components/SearchComponent.jsx:106 | Typing sets the query. |
| SearchComponent.SearchPage.HandleSearch | app/components/SearchComponent.jsx:28-66 | Loading ends false in every case. Non-empty results set the results and the analysis, make the submitted query the last successful one and clear the error. Any other response clears results and analysis, keeps the last successful query and sets "No results found". Every response prepends the query to the capped history and clears the input. A thrown error sets its message and leaves the history and the input unchanged. The globe state is unchanged in all cases. |
| SearchComponent.SearchPage.HandleGlobeVisualization | app/components/SearchComponent.jsx:69-89 | With no successful query, the error becomes "Failed to fetch globe data: Please perform a search first", the globe closes and no request is made. A network failure or an error answer closes the globe with the prefixed message. A 200 answer from the globe route stores its normalised classification and analysis and leaves the globe open. |
| SearchComponent.SearchPage.CloseGlobeVisualization | app/components/SearchComponent.jsx:91-93 | Closing hides the globe. |
| SearchComponent.SearchPage.VisibleGlobeHasBuckets | app/components/SearchComponent.jsx:182-188 | While the overlay is drawn (`showGlobe && globeData`), the classification it colours has a non-empty existing, potential and challenging bucket. |
| SearchComponent.SearchPage.DisplayedResults | app/components/SearchComponent.jsx:126-130 | The page shows at most five results. |
| SearchComponent.GlobeRequestNeverMissingQuery | app/components/SearchComponent.jsx:74-80 | Because the page sends only a non-empty query, the globe route never answers it with the 400 missing-query error. |

## Left out

- Language-model calls: prompt text, the completion request and `JSON.parse` of the reply. Their output is opaque, so it enters as a parameter: `ModelOutcome` for the globe route and `Option<AppDetails>` for `generateAppDetails`.
- GlobeData.Respond: a reply is either well shaped (three lists, three strings) or unusable. A partially typed reply is not modelled. An example is a bucket that is a non-empty string, which passes `.length` and is forwarded.
- TopIdeas.IdeaStore.Post: `userInput` is modelled as an optional string. Other falsy JSON values (`0`, `false`) and a non-string app name are not modelled.
- The search route (`app/api/search/route.js`) is not part of this model. It is one search-API call plus one language-model call, and its answer is the `SearchOutcome` parameter.
- MongoDB: the connection caching (`connectToDatabase`, `lib/mongodb.js`) is process-wide I/O, so the store is a map. Store failures, which give a 500 from `GET` or `POST`, and concurrent upserts are not modelled. The store's atomic increment is assumed.
- TopIdeas.IdeaStore.TopN: MongoDB's order among documents with equal `searches` is unspecified. The contract allows any order among ties and does not fix one.
- GlobeVisualization.FillColors: the buffer holds the 8-bit integer channels of the hex colour. It does not hold three.js's `Float32Array` components in [0, 1], and any colour-space conversion is left out (floating point).
- Deriving latitude and longitude from sphere vertices (`Math.acos`, `Math.atan2`), texture loading, mesh rotation and the `console.warn` for unknown codes are left out. These are floating point, rendering and logging, so vertices enter as given `LatLon` values.
- Rendering: JSX markup, the per-field fallbacks of a result card, the "No data available" text of the analysis panel, and the loading banner are left out.
- The history write to local storage and `toLocaleString` are I/O. The date enters as a string, and the saved history is a parameter of `LoadSavedSearches`.
- SearchComponent.SearchPage.HandleSearch: the axios branches that compose the error text (server error, no response, other error) are left out. The thrown error carries its final message.
- Concurrency: two searches in flight at once, and React state captured by a stale closure between renders. Each handler runs as one sequential step.
- `next.config.mjs` (CORS headers and environment plumbing) is left out.
