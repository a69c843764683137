# tools_collection: a Dafny model of the catalogue API and the category slug helper

The application is a directory of "tools" grouped into categories, with a public listing
and an admin panel. This project models the three pieces of it that hold real logic:

- `GET /api/tools`: it builds a Prisma `where` object from the optional `categoryId`,
  `search` and `featured` query parameters. It returns the matching tools newest first,
  cut to the page window `skip = (page - 1) * limit`, `take = limit`. It also returns the
  count of all matches and `totalPages = ceil(total / limit)`.
- `POST /api/tools` and `POST /api/categories`: the session check (401), then the
  required-field check (400), then one insert (201).
- `GET /api/categories`: every category, ordered by name, each with its live tool count.
- The admin category form: `generateSlug` (lower-case, each whitespace run becomes one
  `-`, other characters outside `[A-Za-z0-9_-]` and U+4E00 to U+9FA5 are deleted), and
  the name field's handler that fills the slug from the name.

Layout, one module per file:

- `common.dfy` (`Common`): `Option`, the handler reply `Reply` (status and body, or
  status and error text), the status codes, and JavaScript truthiness of a string parameter.
- `seqs.dfy` (`Seqs`): `Filter`, the order-keeping selection used for `where` clauses,
  for relation counts and for the slug's character deletion.
- `sorting.dfy` (`Sorting`): a stable insertion sort under a total preorder. It gives the
  meaning of an `orderBy` clause.
- `paging.dfy` (`Paging`): the `skip`/`take` window and the page count.
- `store.dfy` (`Store`): the `Category` and `Tool` rows and the `Database` class. The class
  holds both tables as sequences that the create handlers extend in place. Its `Valid()`
  invariant says ids are unique and every tool references an existing category.
- `tools_route.dfy` (`ToolsRoute`), `categories_route.dfy` (`CategoriesRoute`): the handlers.
- `category_slug.dfy` (`CategorySlug`): `generateSlug` and the form's auto-fill.

The session is a boolean input (`signedIn`). The store's generated ids and timestamps are
parameters of the create handlers. A create handler requires that its id is not used yet,
which is what the store's id generator guarantees.

## Model

| member | source | states |
|---|---|---|
| `ToolsRoute.BuildWhere` | app/api/tools/route.ts:18-35 | The `where` object built field by field selects a tool exactly when the request selects it. A non-empty `categoryId` must match exactly; absent or empty adds nothing. A non-empty `search` must occur in the name, the description or the long description, and one of the three is enough. Only the exact text `featured=true` restricts to featured tools. The conditions combine conjunctively. |
| `ToolsRoute.Get` | app/api/tools/route.ts:8-60 | Replies 200. The page holds the matching tools, newest first, with the first `(page-1)*limit` dropped and at most `limit` kept. `page` and `limit` default to 1 and 12. `total` is the number of all matching tools, whatever the page. `totalPages` is the integer ceiling of `total/limit`. Every listed tool is a stored tool that the request selects. |
| `ToolsRoute.WhereSelectsMatching` | app/api/tools/route.ts:37-49 | The page query and the count both use the same `where` object, and it filters exactly the tools the request selects. |
| `ToolsRoute.NewestFirst` | app/api/tools/route.ts:43-45 | `orderBy createdAt desc` returns a permutation of its input, with `createdAt` non-increasing. |
| `ToolsRoute.PageIsSelected` | app/api/tools/route.ts:37-48 | Every tool in any page window of the ordered matches is a stored tool that the request selects. |
| `ToolsRoute.NewTool` | app/api/tools/route.ts:97-106 | The inserted row carries the body's name, URL, description, long description, icon and category id, the generated id and timestamp, and is featured exactly when the body gives `featured` as true (`featured \|\| false`). |
| `ToolsRoute.Post` | app/api/tools/route.ts:71-120 | Without a session: 401 and no change, before the body is read. Missing or empty `name`, `url`, `description` or `categoryId`: 400 and no change. An unknown category id violates the foreign key: 500 and no change. Otherwise exactly one tool is appended, with the given fields and `featured` false unless given as true, and the reply is 201 with that tool. Categories never change and the store invariant is kept. |
| `Paging.Offset` | app/api/tools/route.ts:16 | Page 1 skips nothing, and each page starts `limit` records after the page before it. |
| `Paging.Window` | app/api/tools/route.ts:46-47 | `skip`/`take` returns the run of records starting at `skip`, with length `min(take, records left after skip)`. |
| `Paging.TotalPages` | app/api/tools/route.ts:58 | `Math.ceil(total/limit)` as an integer: the least `r` with `(r-1)*limit < total <= r*limit`. |
| `Paging.PagesArePrefix` | app/api/tools/route.ts:16 | For one snapshot of the records in one fixed order, pages 1 to `n` cut from it give exactly its first `n*limit` records: the windows skip and repeat nothing. |
| `Paging.PagesCoverAll` | app/api/tools/route.ts:16-58 | For one snapshot of the records in one fixed order, pages 1 to `totalPages` cut from it give every record exactly once, in that order. |
| `Paging.NonEmptyPages` | app/api/tools/route.ts:58 | A page holds records exactly when its number is between 1 and `totalPages`. |
| `Sorting.SortBy` | app/api/tools/route.ts:43-45 | The meaning of an `orderBy` clause: a permutation of the input that is sorted under the given total preorder. |
| `Sorting.Insert` | app/api/categories/route.ts:15-17 | Inserting into a sorted sequence keeps it sorted and adds exactly the one element. |
| `Seqs.Filter` | app/admin/categories/page.tsx:99 | Selection keeps every element that satisfies the predicate, as many times as it occurs, and deletes every other element. |
| `Seqs.FilterConcat` | app/admin/categories/page.tsx:99 | Selection keeps relative order: what survives of an earlier part comes before what survives of a later part. |
| `Store.ToolCount` | app/api/categories/route.ts:10-14 | A category's tool count is the number of tools whose `categoryId` is its id, which is the number of occurrences of that id in the tools' `categoryId` column. |
| `Store.ToolCountAfterInsert` | app/api/categories/route.ts:10-14 | The count is live: adding a tool raises its own category's count by one and leaves every other count unchanged. |
| `CategoriesRoute.Listing` | app/api/categories/route.ts:9-18 | The listing is a reordering of the categories each paired with its live tool count, so it has one entry per category row. Every category appears with its live tool count. Every entry is a stored category with its live count. Names are in ascending order. |
| `CategoriesRoute.NameLeTotal` | app/api/categories/route.ts:15-17 | Any two names are comparable in the name order. |
| `CategoriesRoute.NameLeTransitive` | app/api/categories/route.ts:15-17 | The name order is transitive. |
| `CategoriesRoute.Get` | app/api/categories/route.ts:7-28 | Replies 200 with one entry per category, each carrying its live tool count. |
| `CategoriesRoute.Post` | app/api/categories/route.ts:31-65 | Without a session: 401 and no change, before any field check. Missing or empty `name` or `slug`: 400 and no change; an absent description is not an error. Otherwise exactly one category is appended with the given `name`, `slug` and `description`, the earlier categories and the tools are unchanged, and the reply is 201. On a valid store the new category is then listed with a tool count of 0. |
| `Store.FreshCategoryHasNoTools` | app/api/categories/route.ts:49-57 | In a store whose every tool references an existing category, no tool references an id that no category has yet, so a newly created category starts with no tools. |
| `CategoriesRoute.CreateListsNewCategory` | app/api/categories/route.ts:49-57 | In a valid store, a category created with an id no category has yet is listed with a tool count of 0. |
| `CategoriesRoute.ListingAfterCreate` | app/api/categories/route.ts:49-57 | After a create, the listing has one more entry, and the new category appears in it with a tool count of 0. |
| `CategorySlug.ToLower` | app/admin/categories/page.tsx:97 | Lower-casing leaves no upper-case ASCII letter: `A` to `Z` move to `a` to `z`, and every other character is unchanged. |
| `CategorySlug.Lower` | app/admin/categories/page.tsx:97 | Lower-casing keeps the length, leaves no upper-case ASCII letter, moves each of `A` to `Z` to its lower-case letter and keeps every other character. |
| `CategorySlug.ReplaceRuns` | app/admin/categories/page.tsx:98 | The whitespace step never lengthens the text. |
| `CategorySlug.ReplaceRunsChars` | app/admin/categories/page.tsx:98 | The whitespace step leaves no whitespace and adds no character except `-`. |
| `CategorySlug.ReplaceRunsWithoutSpaces` | app/admin/categories/page.tsx:98 | Text without whitespace passes the whitespace step unchanged. |
| `CategorySlug.ReplaceRunsConcat` | app/admin/categories/page.tsx:98 | The whitespace step over `a + b` is the step over `a`, then the step over `b` continuing from where `a` ended. |
| `CategorySlug.ReplaceRunsRun` | app/admin/categories/page.tsx:98 | A whitespace run followed by a non-space character, or by the end of the text, gives one `-`, or nothing if it continues a run. |
| `CategorySlug.CollapseSpaces` | app/admin/categories/page.tsx:98 | `replace(/\s+/g, '-')` never lengthens the text, leaves no whitespace, adds no character except `-`, and leaves text without whitespace unchanged. |
| `CategorySlug.RunBecomesOneDash` | app/admin/categories/page.tsx:98 | Each maximal run of whitespace becomes exactly one `-`, and the text on either side of it is treated separately. |
| `CategorySlug.GenerateSlug` | app/admin/categories/page.tsx:95-100 | The slug is no longer than the name. Every slug character is a lower-case ASCII letter, a digit, `_`, `-` or in U+4E00 to U+9FA5. The slug contains no whitespace. |
| `CategorySlug.GenerateSlugIdempotent` | app/admin/categories/page.tsx:95-100 | `generateSlug` is idempotent: applied to its own output it changes nothing. |
| `CategorySlug.GenerateSlugConcat` | app/admin/categories/page.tsx:95-100 | The slug of a name cut outside a whitespace run is the slug of the first part followed by the slug of the second: surviving characters keep their order. |
| `CategorySlug.OnSlugChange` | app/admin/categories/page.tsx:212-214 | Typing in the slug field replaces the slug and nothing else. |
| `CategorySlug.OnNameChange` | app/admin/categories/page.tsx:193-199 | Editing the name sets the name. The slug becomes `generateSlug(name)` only when the current slug is empty; a non-empty slug is kept. The description is unchanged. |
| `CategorySlug.SlugKeptWhileTyping` | app/admin/categories/page.tsx:193-199 | Once the slug is non-empty, no sequence of name edits changes it. |
| `CategorySlug.SlugFrozenAfterFirstKeystroke` | app/admin/categories/page.tsx:193-199 | Typing "Go" one key at a time into a fresh form leaves the slug "g", although `generateSlug("Go")` is "go". |
| `CategorySlug.OnSlugEdit` | app/admin/categories/page.tsx:212-214 | Corrected form: typing in the slug field sets the slug and records that it was chosen by hand. |
| `CategorySlug.OnNameEdit` | app/admin/categories/page.tsx:193-199 | Corrected form: the name edit regenerates the slug unless the slug was chosen by hand, and then it keeps the slug. |
| `CategorySlug.SlugFollowsName` | app/admin/categories/page.tsx:193-199 | Corrected form: after any sequence of name edits, a slug not chosen by hand is `generateSlug` of the latest name, and a hand-chosen slug is unchanged. |

## Findings

| source | as written | input that shows it | evidently intended | confidence | as-written member | corrected member |
|---|---|---|---|---|---|---|
| app/admin/categories/page.tsx:193-199 | The name field's change handler sets `slug: formData.slug \|\| generateSlug(name)`. It runs once per keystroke, so the first keystroke fills the slug and every later keystroke finds it non-empty. | Typing the name "Go" key by key into a new category form: the handler sees "G", then "Go", and the slug ends as "g". | The slug follows the name, as `generateSlug` of the whole name, until the administrator edits the slug field by hand. | medium, not executed | `CategorySlug.SlugFrozenAfterFirstKeystroke` | `CategorySlug.SlugFollowsName` |

## Left out

- React views, client state, fetch calls and styling (the listing page, the admin pages, the tool card, the category filter, the admin layout, the root layout) only render and fetch.
- Session handling (`getServerSession`, sign-in, the admin redirect) belongs to a foreign library. The session is the boolean `signedIn`.
- Password hashing, the seed script and the ad banner are one-off I/O or third-party scripts.
- The per-id `PUT`/`DELETE` handlers are not part of this model. So the cascade delete of a category's tools, which only the delete confirmation text hints at, is not modelled. The unique `slug` constraint is not modelled either: a create with a slug already in use fails in the store and the handler replies 500, while the model appends the category.
- The `include: { category: true }` join in tool replies: the model returns the tool rows. The joined category is the one whose id the row's `categoryId` names.
- The two listing queries run in parallel (`Promise.all`). The model runs them one after the other; they only read.
- Generic store failures in the `catch` branches (a lost connection and the like) are not modelled. The one such failure the model includes, a tool create with an unknown `categoryId`, is modelled as the 500 reply with the store unchanged.
- Unicode: `toLowerCase` is modelled for ASCII letters only. Full Unicode lower-casing can change other characters and can lengthen a string. For ASCII and CJK input the model is exact. Whitespace is the fixed set of code points JavaScript's `\s` matches.
- `contains` is modelled as case-sensitive substring matching. Whether the store matches case-insensitively depends on its collation. A tool without a long description never matches on it.
- Name order is code-point lexicographic, the order without a collation. Ties in `createdAt` or in names come out in store order, because the sort is stable. The store does not fix that order.
- JSON bodies are modelled with string fields and a boolean `featured`. A non-string value in a required field, or a non-boolean truthy `featured`, is not modelled.
- `Paging.PagesArePrefix`, `Paging.PagesCoverAll`: hold for one snapshot of the table in one fixed order. Each page is a separate request that sorts again. The store does not fix the order of tools with equal `createdAt`, so two requests may order them differently. A tool created between two page requests shifts every later page by one. In either case, the pages the API returns can skip or repeat a tool.
- `ToolsRoute.Get`: requires `page >= 1` and `limit >= 1` when given, and takes them already parsed. The source does not guard against `parseInt` giving `NaN`, `limit = 0` (where `Math.ceil(total/0)` is `Infinity`) or a page below 1 (a negative `skip`). The model computes `totalPages` with an integer ceiling instead of float division.
- `ToolsRoute.Post`, `CategoriesRoute.Post`: require an id that no row of the table uses yet. The store's id generator gives one.
