# Image feed and picker screens, modelled in Dafny

This project models the decision and state-update logic of two React Native
screens.

- **List screen** (`SampleFlatlist`). It has two parts.
  - The feed (module `Feed`) keeps a page cursor `page`, the products on display `products`, and the status wrapper `apiProducts` (`data`, `status`, `errorMessage`). It is loaded page by page, up to page 4, and can be refreshed.
  - The download path (module `Download`) starts with a storage-permission gate. Once the gate allows it, the screen builds the options for the file-fetch library, including where the image is saved.
- **Image-picker screen** (`ImagePicker`, module `ImagePicker`). A camera-permission gate decides whether the camera opens. The callback shared by the gallery and the camera stores the picked image's uri.

Module `Platform` holds the shared vocabulary: the OS, permission answers, permissions, alert tags, and the record of one gate evaluation.

Every SDK call becomes an input:
- what the permission library's `check` answers, and what `request` would answer;
- the outcome of the HTTP list request, either a page of products or the string form of the caught error;
- the directories the file-fetch library reports;
- what the native picker hands back.

The mutable screen state is a class:
- `Feed.FeedScreen` has fields `page`, `products` and `apiProducts`;
- `ImagePicker.ImagePickerScreen` has the field `pickerResponse`.

Each handler is a method that states the whole new state. The feed also has a value-level model (`FeedState`, `Event`, `Apply`, `Run`). Each `FeedScreen` method is tied to `Apply`. The lemmas over whole event sequences are proved on that model.

The model follows the code as written, including:
- The success status is the string `'SUCCCESS'` with three C's (`StatusLabel`).
- A refresh replaces the displayed list only when page 1 arrives. If that request fails, the old list stays on screen while the cursor is back on page 1 (`RefreshThenFailure`).
- A successful fetch appends to the wrapper's `data` even for page 1, so a refresh never resets it.
- The permission gates treat every answer other than `unavailable`, `blocked` and `denied` as allowed. This includes the library's fifth answer, `limited`.

## Model

| member | source | states |
|---|---|---|
| Feed.Started | src/components/SampleFlatlist.tsx:59-62 | Starting a fetch gives status LOADING and keeps the cursor, the products, the wrapper's data and its message. |
| Feed.Succeeded | src/components/SampleFlatlist.tsx:68-75 | After a delivered page the status is SUCCCESS with an empty message and the cursor is unchanged. Page 1 becomes the whole list; any other page is appended after the old list, which is kept as a prefix. The wrapper's data is the old data followed by the page, on page 1 too. |
| Feed.Failed | src/components/SampleFlatlist.tsx:76-81 | After a failure the status is FAIL, the data is empty and the message is the error's text; the list and the cursor are unchanged. |
| Feed.Apply | src/components/SampleFlatlist.tsx:50-82 | One event keeps the cursor in 1..4. Only a response changes the list, and a response never moves the cursor. An end-of-list that requests moves the cursor to page+1; a refresh puts it on page 1; the button on an empty list leaves it. Every event that issues a request sets LOADING and keeps the data; an end-of-list at the cap changes nothing. |
| Feed.FeedScreen.constructor | src/components/SampleFlatlist.tsx:41-48 | The screen starts on page 1 with no products and a wrapper with no data, status INITIAL and an empty message; the cursor invariant 1 <= page < 5 holds. |
| Feed.FeedScreen.StartFetch | src/components/SampleFlatlist.tsx:59-62 | Starting a fetch sets the status to LOADING and keeps the wrapper's data and message, the cursor and the products. |
| Feed.FeedScreen.FetchSucceeded | src/components/SampleFlatlist.tsx:68-75 | A delivered page 1 becomes the whole list; any other page is appended to the old list in order, without de-duplication. The wrapper becomes old data ++ page, status SUCCCESS and an empty message, on page 1 too. The cursor is unchanged. |
| Feed.FeedScreen.FetchFailed | src/components/SampleFlatlist.tsx:76-81 | A failure sets the wrapper to no data, status FAIL and the error's string form. The products and the cursor are unchanged. |
| Feed.FeedScreen.Settle | src/components/SampleFlatlist.tsx:63-82 | The awaited request either delivers a page (success path) or throws (failure path); the result equals the value model's transition, and the cursor invariant is kept. |
| Feed.FeedScreen.FetchMoreProducts | src/components/SampleFlatlist.tsx:50-56 | A request for page+1 is issued exactly when page+1 < 5. The cursor then advances to page+1, the products are unchanged and the status is LOADING. Otherwise nothing changes and nothing is requested. |
| Feed.FeedScreen.Refresh | src/components/SampleFlatlist.tsx:194-197 | A refresh requests page 1, puts the cursor on page 1, sets the status to LOADING and leaves the products as they were until the page arrives. |
| Feed.FeedScreen.PressGetProducts | src/components/SampleFlatlist.tsx:172-176 | With no products on display, the button fetches page 1 and leaves the cursor as it is; with products it behaves as load-more. The button exists only while the list is empty, so in the program it always fetches page 1; the load-more branch is modelled as written but cannot be reached. |
| Feed.RunKeepsPageInRange | src/components/SampleFlatlist.tsx:48-56 | From a cursor in 1..4, every sequence of end-of-list, refresh, button and response events keeps the cursor in 1..4. |
| Feed.SequentialLoadConcatenates | src/components/SampleFlatlist.tsx:50-75 | Loading pages 1..k (k < 5) one after another on a fresh screen shows exactly the pages concatenated in arrival order, ends on page k with status SUCCCESS and wrapper data equal to the same concatenation. The next end-of-list requests page k+1 only when k+1 < 5, so page 5 is never requested. |
| Feed.RefreshThenSuccess | src/components/SampleFlatlist.tsx:194-197 | A refresh followed by a delivered page 1 makes the list exactly that page and the cursor 1, while the wrapper's data becomes old data ++ page (never reset). |
| Feed.RefreshThenFailure | src/components/SampleFlatlist.tsx:194-197 | A refresh whose request fails puts the cursor on page 1 but keeps the old products, with status FAIL and the error message. |
| Download.CheckPermission | src/components/SampleFlatlist.tsx:128-161 | On Android above version 29 the gate allows without calling check or request. Otherwise it checks the photo-library-add permission on iOS and write-external-storage elsewhere. It then allows exactly on granted/limited, or on denied followed by a granted request. It requests exactly once on denied and never otherwise. It shows the not-available alert on unavailable and the open-settings alert on blocked. |
| Download.RequestAnswerUnusedWithoutRequest | src/components/SampleFlatlist.tsx:152-157 | When the gate makes no request, its outcome does not depend on what a request would have answered. |
| Download.SavePath | src/components/SampleFlatlist.tsx:105 | The save path of an image is `dir/image-<id>.jpg`: a `.jpg` path that starts with `dir/image-`, exactly 11 characters longer than directory and id together. It names a file directly inside the directory exactly when the id has no slash; an id with a slash leads into a subdirectory. |
| Download.SavePathRoundTrip | src/components/SampleFlatlist.tsx:105 | The id can be read back from the save path `dir/image-<id>.jpg`. |
| Download.ImageIdOfOnlySavePaths | src/components/SampleFlatlist.tsx:105 | A path from which an id is read back is exactly the save path of that id. |
| Download.SavePathInjective | src/components/SampleFlatlist.tsx:105 | Two different images are never saved to the same file of one directory. |
| Download.ConfigAsWritten | src/components/SampleFlatlist.tsx:92-106 | The options as written: the top-level title is the literal text `image-${index}.jpg`. The path is in the platform's save directory and names the image. The Android part's path is under the download directory and ends in the Android title. The cache, download-manager, notification and media-scannable flags are all on. |
| Download.ConfigAsWrittenTitleMismatch | src/components/SampleFlatlist.tsx:104 | As written, every image gets the same top-level title. For every id other than the text `${index}` itself, that title does not name the file saved at the path. |
| Download.Config | src/components/SampleFlatlist.tsx:92-106 | With the title corrected, the title names the file at the path, in the platform's save directory. The Android part saves the same file name under the download directory. The id can be read back from the path. The cache, download-manager, notification and media-scannable flags are all on. |
| Download.SelectOptions | src/components/SampleFlatlist.tsx:107-112 | The options are handed over exactly on iOS and Android, unchanged; on any other platform the empty options object is used. |
| Download.ActualDownload | src/components/SampleFlatlist.tsx:85-112 | The download aborts exactly when the storage gate refuses. Otherwise it fetches the given url. On iOS and Android the options are the ones written in the code. They save to `DocumentDir/image-<id>.jpg` on iOS and to `DownloadDir/image-<id>.jpg` elsewhere. The Android part always uses `DownloadDir` with the title `image-<id>.jpg`. The top-level title is the literal `image-${index}.jpg`, and all flags are on. On any other platform the options are empty. |
| Download.ActualDownloadCorrected | src/components/SampleFlatlist.tsx:85-112 | With the corrected title, a download goes ahead in exactly the same cases. The options are identical except that the top-level title is `image-<id>.jpg`, which names the file at the path. |
| ImagePicker.CameraPermission | src/components/ImagePicker.tsx:63-66 | The camera permission is the Android one exactly on Android and the iOS one on every other platform. |
| ImagePicker.HasCameraPermission | src/components/ImagePicker.tsx:62-81 | The gate always checks the camera permission. It allows exactly on granted/limited, or on denied followed by a granted request. It requests exactly once on denied and never otherwise. It shows the not-available alert exactly on unavailable and blocked. |
| ImagePicker.GatesAgree | src/components/ImagePicker.tsx:68-80 | Wherever the storage gate asks at all, it and the camera gate make the same decision with the same number of requests. |
| ImagePicker.Interpret | src/components/ImagePicker.tsx:29-37 | A cancel wins over everything, then an error code. Otherwise the pick is `''` when there are no assets and the text of the first asset's uri otherwise ("undefined" when the uri is absent). An empty asset list throws before anything is stored. |
| ImagePicker.ImagePickerScreen.constructor | src/components/ImagePicker.tsx:18 | The stored response starts empty. |
| ImagePicker.ImagePickerScreen.OnPickerResult | src/components/ImagePicker.tsx:49-58 | Only a successful pick changes the stored response, to the picked value. A cancel, an error code or an empty asset list leaves it unchanged. |
| ImagePicker.ImagePickerScreen.OnImageGalleryClick | src/components/ImagePicker.tsx:20-40 | The gallery always opens, and its result is stored as the callback decides. |
| ImagePicker.ImagePickerScreen.OnCameraClick | src/components/ImagePicker.tsx:42-60 | The camera opens exactly when the camera gate allows it. Only then can the stored response change; otherwise it is unchanged. |

## Findings

| source | as written | input that shows it | evidently intended | confidence | as-written member | corrected member |
|---|---|---|---|---|---|---|
| src/components/SampleFlatlist.tsx:104 | the top-level `title` is written in plain quotes, `'image-${index}.jpg'`, so the placeholder is never substituted | image id `"7"`: the file is `image-7.jpg`, the title is the text `image-${index}.jpg` | the title is `image-<id>.jpg`, as in the Android part on line 98 | not executed; likely low impact, since the Android part carries its own correct title | Download.ActualDownload (with Download.ConfigAsWritten and Download.ConfigAsWrittenTitleMismatch) | Download.ActualDownloadCorrected (with Download.Config) |

## Left out

- The HTTP request and the JSON parsing. The request URL is `https://picsum.photos/v2/list?page=<n>&limit=10`. The model reports only the page number it requests, and each outcome arrives as an event carrying a product list or an error string. A response that parses but is not a list is not modelled.
- Feed.FeedScreen: does not model React's asynchronous `setState` or stale closures. The source's success branch uses the `products` and `apiProducts.data` captured when the fetch started. The model applies each response to the current state, one event at a time. Overlapping requests, and their last-write-wins race, are concurrency and are left out.
- Download.ActualDownload: stops at the plan handed to the file-fetch library. The transfer, the iOS `writeFile` copy, the iOS document preview and the logged transfer errors are foreign library I/O.
- The alerts' texts and the `openSettings` action behind the blocked-storage alert. Alerts are recorded only as tags in `GateRun`.
- The rendering condition of the "Get Products" button. It is shown only while the list is empty, so its load-more branch cannot be reached in the program. The model still lets `ButtonPressed` take that branch on a non-empty list. This over-approximates the program and keeps the cursor within 1..4.
- Console logging, all rendering and styling, the `FlatList` end-reached threshold, and the `isRefreshing` flag, which the code never sets to true.
- The picker options (selection limit, media type, base64). The picker's `errorMessage` is only logged.
- The app shell (`App.tsx`). It hides the splash screen and renders the picker screen, with no logic to model.
