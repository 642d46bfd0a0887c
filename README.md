# ns-server posts and themes: a Dafny model

This project models two small pieces of the blog server ns-server (mog) and
proves what they promise.

- **The posts service** (`src/modules/posts/posts.service.ts`). `list` turns a
  listing query into the repository's find options: the `skip`/`take`
  pagination, the projected columns and the sort order. `send` is a checked
  insert. It refuses a path that is already stored, then a slug the category
  service rejects, and only then saves. `update`, `del`, `findOne` and `getNum`
  act on the same table. The table is a `map` from id to post, held by the class
  `Posts.PostsService` together with the auto-increment counter that fresh ids
  come from. The category check is a predicate passed in by the caller.
- **The themes controller's web side**
  (`apps/themes-service/src/themes-service.controller.ts`). `RouteOf` is the
  router. It sends each fixed route to its layout, `/raw` and the paths under
  `/raw/` to the raw-file handlers, and every other path to the custom layout.
  `_render` picks the template, `<theme>/<layout>.ejs` or
  `<theme>/custom/page-<path>.ejs`, and answers on the Fastify reply. `assets`
  serves a theme's raw file with its content type. Both handlers have their
  early exits: no theme gives 500 "Theme not found.", an empty file name is
  Forbidden, and every error gives 500.
  - The reply is the class `Themes.Reply`. Its `Send` follows Fastify: the
    first send fixes what the client receives, and any later send is dropped.
  - The methods `Render` and `Assets` follow the handlers statement by
    statement on that object. Each is proved to leave exactly the response
    described by the pure functions `RenderResponse` and `AssetsOutcome`.
  - Proving this shows a detail of the variables-error path. That path sends
    its own 500 and then throws. The catch block's second 500, with a different
    message, never reaches the client.

Paths are sequences of segments. The file system is a map from path to file
text. The other collaborators are inputs: the layout's variables (a result),
the EJS compile-and-render step (a function) and the mime table (a function).

## Model

| member | source | states |
|---|---|---|
| `CommaList.Split` | src/modules/posts/posts.service.ts:32 | `select.split(",")` always gives at least one piece, no piece holds a comma, and joining the pieces with "," gives back the original string |
| `CommaList.JoinSplit` | src/modules/posts/posts.service.ts:32 | the reverse round trip: splitting the join of a non-empty list of comma-free pieces gives back those pieces |
| `Posts.Columns` | src/modules/posts/posts.service.ts:32 | an absent or empty `select` projects exactly the six columns `id,title,path,slug,createdAt,updatedAt` in that order; a non-empty one projects comma-free pieces whose join is the `select` string |
| `Posts.List` | src/modules/posts/posts.service.ts:31-41 | a falsy limit leaves `skip` and `take` undefined whatever the page; a limit above 1 gives `skip = (page - 1) * limit` (not a number when the page is absent) and `take = limit`; any other truthy limit gives `skip = limit`; the order is ASC exactly when `orderBy` is the string "ASC" |
| `Posts.PageMattersOnlyAboveOne` | src/modules/posts/posts.service.ts:34-35 | replacing the page, present or absent, by another changes the find options if and only if the two pages differ and the limit is above 1, so with limit 1 (or 0, or negative) the page has no effect |
| `Posts.PostsService.FindOne` | src/modules/posts/posts.service.ts:25-29 | a row is found exactly when some row has the path, and the answer is that row's id together with its stored post, whose path is the one asked for |
| `Posts.PostsService.GetNum` | src/modules/posts/posts.service.ts:43-45 | the count is the number of stored posts |
| `Posts.PostsService.Save` | src/modules/posts/posts.service.ts:99 | the repository's save stores the post under its id, or under a fresh id when it has none, and changes no other row |
| `Posts.PostsService.Send` | src/modules/posts/posts.service.ts:88-101 | a stored path fails with 400 "Already Exist" and leaves the table unchanged, and this check comes before the category check; a new path with a rejected slug fails with 400 "Categories Not Found" and changes nothing; otherwise exactly the given post is stored under the answered id and nothing else changes (a post without an id adds one row); unique paths stay unique |
| `Posts.PostsService.Update` | src/modules/posts/posts.service.ts:104-106 | the row with the payload's id takes the new fields and one row is affected; an unknown id affects none and changes nothing; a payload without an id is refused |
| `Posts.PostsService.Del` | src/modules/posts/posts.service.ts:109-113 | the row with that id is removed, if present, and the number of rows removed is answered; no other row changes |
| `Posts.UpdateMayDuplicatePath` | src/modules/posts/posts.service.ts:104-106 | unlike `send`, an update does no path check: writing over any row a post whose path another row holds leaves two rows with the same path |
| `Themes.RouteOf` | apps/themes-service/src/themes-service.controller.ts:145-260 | `/raw` reaches the raw root, exactly the paths under `/raw/` reach the raw-file handler with the rest of the path as the file, each fixed route reaches its own layout, and every other path renders the custom layout |
| `Themes.RouteRoundTrip` | apps/themes-service/src/themes-service.controller.ts:145-213 | `/`, `/archives`, `/category`, `/tag`, `/post`, `/page` and `/friends` reach index, archives, category, tag, post, page and friends, and no other path reaches these layouts |
| `Themes.ConfiguredTheme` | apps/themes-service/src/themes-service.controller.ts:91-93 | falling back to undefined for a falsy value, a theme is configured exactly when the `theme` field is present and not empty, and it is that field |
| `Themes.StripLeadingSlash` | apps/themes-service/src/themes-service.controller.ts:117 | the pattern `^\/`, which has no global flag, removes one leading slash when there is one, and only one; any other path is unchanged |
| `Themes.TemplatePath` | apps/themes-service/src/themes-service.controller.ts:110-128 | the custom layout's template is `THEME_DIR/<theme>/custom/page-<path without one leading slash>.ejs` and is chosen only when that file exists, and otherwise stays unset; every other layout's template is `THEME_DIR/<theme>/<layout>.ejs`, directly in the theme and never under `custom` |
| `Themes.RenderResponse` | apps/themes-service/src/themes-service.controller.ts:83-142 | without a theme the answer is 500 "Theme not found." whatever the variables and files, so no file matters; a malformed environment, a variables error, a missing or unset template and a render error each give 500 with no HTML content type; status 200 happens exactly when every step succeeds, and then its body is the renderer's output and its content type is `text/html; charset=utf-8` |
| `Themes.Render` | apps/themes-service/src/themes-service.controller.ts:83-142 | the handler's sequence of `code`/`header`/`send` calls on a fresh reply leaves exactly the `RenderResponse` answer; in particular the variables error's own 500 is what the client receives |
| `Themes.ContentType` | apps/themes-service/src/themes-service.controller.ts:240-241 | a raw file's content type is its mime type, or `text/plain` when that is unknown, always followed by `; charset=utf-8` |
| `Themes.AssetsOutcome` | apps/themes-service/src/themes-service.controller.ts:215-243 | an empty file name is Forbidden before the theme is looked up; a malformed environment escapes the handler; no theme gives 500 "Theme not found."; a missing file gives a 500 read error; otherwise the answer is 200 with the file's text and its content type |
| `Themes.Assets` | apps/themes-service/src/themes-service.controller.ts:215-243 | the handler's calls on a fresh reply raise or answer exactly as `AssetsOutcome` says; after a failed read the later header and empty send do not reach the client |
| `Themes.Respond` | apps/themes-service/src/themes-service.controller.ts:215-260 | `/raw` (the `assetsRoot` handler) and `/raw/` are Forbidden whatever is configured; with a readable environment and no theme every other path answers 500 "Theme not found."; a 200 outside `/raw/` is an HTML page |

## Left out

- The session and token authority, its auth guard and the RPC transporter: `user.controller.ts` only forwards each call through a `ClientProxy` to another service, so it has no logic of its own to model.
- `apps/core/src/modules/user/user.controller.ts`: every handler is a one-line forward through a client proxy.
- `libs/helper/src/helper.assets.service.ts`: HTTP download, ZIP extraction and file writes. These are all I/O.
- `apps/core/src/modules/migrate/migrate.interface.ts`: type declarations only.
- The message-pattern handlers of the themes controller (lines 29-81): each forwards to the themes service, which is not part of this model.
- EJS compilation and rendering: an input function from template text, theme root and variables to HTML or an error. The model assumes that compiling the unset template of a custom page without a file throws, because EJS calls string methods on the template text.
- `JSON.parse` of the inner environment: an input that is either unparsable or an object with an optional string `theme`. Non-string theme values are not modelled.
- `mime.getType`, `fs.exists`, `fs.readFile` and `fs.readFileSync`: the mime table is an input function, and the file system is a map. A file that exists but cannot be read is not modelled.
- `path.join` normalisation: paths are segment sequences joined as they are. A theme or file name that contains `/` or `..` stays one segment, so path traversal is not analysed.
- `getAllVariables` of the render service: its result is an input. `ThemeEnum` is declared in that service, which is not part of this model; its values are taken to be the layout names (`index`, `archives`, …).
- How the framework turns a raised `ForbiddenException` or an uncaught error into an HTTP response: the model stops at the raised exception. Fastify's default content type for error bodies is also not modelled.
- Themes.Render, Themes.Assets: stated for a fresh reply (status 200, no headers, nothing sent), which is what the framework hands each handler.
- TypeORM internals: `findAndCount` is not executed, so `List` stops at the find options. `save` is modelled as upserting by id with auto-increment ids, and update without an id as a refusal. The `createdAt`/`updatedAt` columns kept by the database are not modelled.
- Posts.List: limit and page are integers. The coercion of query-string values by JavaScript's `>` and `-` is not modelled, and NaN stands only for an absent page.
- `CategoriesService.check` is not part of this model. It is taken as a synchronous predicate on the slug. If the real check returns a promise that is not awaited, the "Categories Not Found" branch could never be taken.
- async/await and concurrency between requests.
- The `consola.info` logging of a missing theme (lines 95 and 226): logging has no effect on the response and is not modelled.
