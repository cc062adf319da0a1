# Dogs by breed: the selection form, modelled in Dafny

The page lets a user pick a dog breed, optionally a sub-breed, and a number of
pictures (1 to 4), then shows that many random pictures from the dog image API.
This project models the page's logic apart from React:

- `Envelope` mirrors the API's response envelope (`status`, `message`, `code`) and
  the breed list the page is built with: the keys of the catalog object when the
  status is "success", nothing otherwise.
- `Form` holds the selection record (breed, sub-breed, count), one error flag per
  field, the submit-time validation and the images request path
  `/breed/{breed}[/{subBreed}]/images/random/{count}`. The path is checked against
  an independent reading of it, as the API's router splits it at '/'. For names
  without '/' (the API's breed and sub-breed names have none), that reading gives
  back the selection, so different selections fetch different paths. Every path it
  accepts is the request path of some selection.
- `Text` holds ASCII `capitalize` and a split/join pair, with both round trips proved.
- `View` holds the image alt label and the grid's column count. For names without
  spaces (the API's names have none), splitting the label at spaces gives back "A picture of", the capitalised sub-breed if one is chosen,
  and the capitalised breed.
- `Home.Page` is the component's state: `values`, `errors`, `loading`, `result`.
  Its methods are the change handler, the breed-reset effect and the submit handler.
  The submit handler is split at its `await` into `Submit` and `Receive`, so the
  state while the request is out (`loading` true) can be seen. `HandleSubmit` runs
  both halves with the network fetch passed in as a function. The scenario methods
  run the page from its initial state through the end-to-end cases: akita with two
  images, bulldog/french with one, a breed change dropping the sub-breed, the
  same breed chosen again keeping it, and a submit without a breed.

The network is never called. The fetch is the `fetch` parameter of
`HandleSubmit`, or the `response` argument of `Receive`. The sub-breed list comes
from a keyed request, and it is an input to `Submit`: `None` when no list is loaded.

## Model

| member | source | states |
|---|---|---|
| Envelope.Names | pages/index.tsx:26 | the breed names are the catalog's entry names, one per entry, in the order received |
| Envelope.ObjectKeys | pages/index.tsx:26 | `Object.keys` of a payload: entry names for an object; for an array or a string, one key per element, the i-th being the canonical decimal spelling of i (digits only, no leading zero) |
| Envelope.IndexKeys | pages/index.tsx:26 | the keys of an n-element array are n strings, the i-th made of decimal digits only, without a leading zero unless it is "0", and worth i |
| Envelope.BreedNames | pages/index.tsx:26 | an error envelope gives no breeds; a success envelope with a catalog gives exactly its entry names in order; any other success payload gives one canonical decimal index key per element of its list or character of its string |
| Envelope.BreedNamesAreCatalogKeys | pages/index.tsx:26 | a name is offered in the breed selector if and only if some catalog entry has that name |
| Text.Upper | pages/index.tsx:112 | `toUpperCase` on a character: a lower-case ASCII letter becomes its upper-case letter, anything else is unchanged |
| Text.Capitalize | pages/index.tsx:111-112 | the length is kept; only index 0 may change; the result never starts with a lower-case letter; a string not starting with one is returned unchanged |
| Text.CapitalizeIdempotent | pages/index.tsx:111-112 | capitalising twice is the same as capitalising once |
| Form.Values.With | pages/index.tsx:71 | `{ ...values, [f]: x }`: field f reads x afterwards and the other two fields are unchanged |
| Form.Errors.Cleared | pages/index.tsx:70 | `{ ...errors, [f]: false }`: flag f is false afterwards and the other two flags are unchanged |
| Form.Validate | pages/index.tsx:80-84 | breed flagged iff empty; count flagged iff empty; sub-breed flagged iff a non-empty sub-breed list is loaded and none is chosen; some flag is raised iff the selection is incomplete |
| Form.Aborts | pages/index.tsx:86-91 | the handler's early-return test holds exactly when at least one of the flags it has just set is true |
| Form.NoSubBreedsNeverBlock | pages/index.tsx:80-91 | with no sub-breed list, or an empty one, the sub-breed is never flagged, and only a missing breed or count stops the submit |
| Form.FetchArgument | pages/index.tsx:93-98 | the fetcher's argument `breed && count && path` is the request path when breed and count are set, and "" otherwise |
| Form.ValidSubmitFetchesRequestPath | pages/index.tsx:86-98 | a submit that passes validation fetches exactly the request path |
| Form.RequestPathIsJoin | pages/index.tsx:96-98 | the request path is "", "breed", the breed, the sub-breed only if one is chosen, "images", "random" and the count, joined with '/' |
| Form.ParseRequestPath | pages/index.tsx:96-98 | for names without '/', splitting the request path at '/' gives back the breed, the sub-breed (or none) and the count it was built from |
| Form.ParsedPathIsRequestPath | pages/index.tsx:96-98 | conversely, any path the API reads as an images request has no '/' inside its names and is exactly the request path of the selection it names |
| Form.RequestPathInjective | pages/index.tsx:96-98 | two selections without '/' in their names that give the same request path are equal |
| View.AltLabel | pages/index.tsx:209-211 | the label starts with "A picture of " and ends with the capitalised breed; when a sub-breed is chosen, the capitalised sub-breed and a space sit between them, and otherwise nothing does |
| View.AltLabelWords | pages/index.tsx:209-211 | for names without spaces, the label's words are "A", "picture", "of", the capitalised sub-breed if one is chosen, and the capitalised breed |
| View.Columns | pages/index.tsx:199 | 1 column exactly on extra-small screens, 2 exactly on small ones that are not extra-small, 4 otherwise |
| Home.Page.constructor | pages/index.tsx:41-56 | the page starts with all values empty, no flags raised, not loading and no images |
| Home.Page.HandleChange | pages/index.tsx:66-72 | the edited field takes the new value and loses its flag; the other values, the other flags, `loading` and `result` are unchanged |
| Home.Page.ResetSubBreed | pages/index.tsx:104-108 | when a breed is set the sub-breed becomes "" and the breed and count are unchanged; with no breed nothing changes |
| Home.Page.ChooseBreed | pages/index.tsx:104-109 | editing the breed, then running the effect only when the breed changed: the breed is the new one, the count is kept, and the sub-breed is cleared exactly when the new breed is non-empty and differs from the old one |
| Home.Page.Submit | pages/index.tsx:79-98 | every flag is recomputed by `Validate`; an aborted submit requests nothing and leaves `loading` and `result` as they were; otherwise `loading` is true and the request path is returned |
| Home.Page.Receive | pages/index.tsx:100-101 | the result is replaced wholesale by the reply's URL list and `loading` becomes false |
| Home.Page.HandleSubmit | pages/index.tsx:74-102 | a valid submit fetches the request path, shows exactly what came back, and ends not loading; an aborted one fetches nothing and leaves `result` and `loading` alone |
| Home.AkitaScenario | pages/index.tsx:74-102 | akita, no sub-breeds, count 2 fetches `/breed/akita/images/random/2` and shows the reply's URLs once loading is over |
| Home.BulldogScenario | pages/index.tsx:93-98 | bulldog, french, count 1 fetches `/breed/bulldog/french/images/random/1`, whatever sub-breed list is loaded |
| Home.ChangeBreedScenario | pages/index.tsx:104-109 | a sub-breed chosen for one breed is dropped on choosing a different one, so when the new breed requires no sub-breed (its list is empty or not loaded) the request names no sub-breed and nothing is flagged |
| Home.SameBreedScenario | pages/index.tsx:104-109 | choosing the breed already selected does not run the effect, so the chosen sub-breed is kept and named in the request |
| Home.MissingBreedScenario | pages/index.tsx:80-91 | a submit with no breed flags the breed, flags the count iff it is empty, requests nothing and does not start loading |

## Left out

- The fetcher (utils/fetcher.ts) does network I/O. It is represented only by the `fetch` parameter of `HandleSubmit` and the `response` of `Receive`; network failures are not modelled.
- The sub-breed request (SWR with a null key when no breed is set, its caching and revalidation, and the `getSubBreeds()` re-request in the effect) is library behaviour. Its outcome is the `subBreeds` input of `Submit`.
- The effect also fires when the sub-breed list itself changes, which is a detail of React's re-rendering. The model covers only its firing when the breed value changes, in `ChooseBreed`; an edit to the same breed does not fire it.
- Asynchronous timing is not modelled: a submit before the sub-breed list arrives, or a late reply overwriting newer state.
- Home.Page.Receive: requires the reply's message to be a URL list. The source casts whatever message arrives, so an error envelope's string would become the result; that confusion is not reproduced.
- Form.SubBreedRequired: a sub-breed reply whose message is a non-empty string (an error envelope) passes `subBreeds?.length > 0` in the source. The model takes the sub-breed list to be a list of strings or absent.
- Text.Upper: covers ASCII only. JavaScript's `toUpperCase` is Unicode-aware, and for some letters it changes the length.
- Text.Capitalize: requires a non-empty string. The source throws on "" (its `string[0]` is undefined); the breed is never empty where it is used.
- View.AltLabel: requires a breed, for the same reason.
- Envelope.ObjectKeys: keeps an object's entries in the order received. It does not model the JavaScript rule that integer-like keys come first, nor duplicate JSON keys. A string's keys are counted per character, not per UTF-16 unit.
- Rendering (Material-UI components, `next/image`, the media queries themselves) is not modelled beyond the column-count and label expressions. The app shell (pages/_app.tsx) is not part of this model.
