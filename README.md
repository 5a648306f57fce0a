# photograph-go: dispatch and preview sizing, modelled in Dafny

photograph-go is a small HTTP server (`src/main.go`). It lists a folder of
photos and makes downscaled previews of them the first time they are needed.
It serves previews under `/preview/<name>` and originals under
`/origin/<name>`. This project models the three pieces of that file that
make decisions, as pure Dafny functions with proved properties:

- **Request dispatch** (`Server.ServeHTTP`). Every request gets the three
  CORS header fields with their fixed values. An `OPTIONS` request stops
  there, with an empty 200 response. Any other request goes to the first
  handler whose prefix the path has, tested in the order `/list`,
  `/preview`, `/origin`. A path with none of them gets a 404. The file
  handlers take the file name from the path by removing `/preview/` or
  `/origin/` with `strings.TrimPrefix` (module `Strings`).
- **Preview size** (`Resize.PreviewSize`). `x` is the long axis and `y` the
  short axis. The divisor `a` is the larger of `x / 800` and `y / 600`,
  and both native axes are divided by `a`. The result is no larger than the
  image and keeps its orientation. It is under 1600 × 1200 and reaches 800
  on the long axis or 600 on the short one. When the image is under 800 on
  its long axis and under 600 on its short one, `a` is 0 and the source
  divides by zero. The model returns `DivideByZero` for that case (see
  Findings).
- **Listing records** (`Listing.MakeEntry`). Each record's `src` is
  `/preview/` followed by the preview file's name. Dispatching a path equal
  to that `src` reaches `Preview(name)`, the preview handler for that same
  file.

The files are `strings.dfy`, `resize.dfy`, `server.dfy` and `listing.dfy`.
There is one module per file.

Two consequences of the code that are easy to miss:

- The divisor is zero only when the long axis is under 800 AND the short axis
  is under 600. An image under 800 on its long axis but at least 600 on its
  short one (700 × 650, say) gets divisor 1.
- Dispatch tests `/preview` and `/origin` without the trailing slash, while
  the handlers strip `/preview/` and `/origin/`. So `/previews.jpg` reaches
  the preview handler with the whole path as its file name
  (`Server.PrefixWithoutSlash`).

## Model

| member | source | states |
|---|---|---|
| Strings.HasPrefixIffConcat | src/main.go:28-32 | a path has a prefix exactly when it is that prefix followed by some rest |
| Strings.TrimPrefix | src/main.go:131 | with the prefix present, prefix + result is the input; without it, the input comes back unchanged |
| Strings.TrimPrefixOfConcat | src/main.go:131 | trimming a prefix that was just prepended gives back exactly the rest |
| Resize.Axes | src/main.go:70-73 | after the conditional swap, `x` is the larger and `y` the smaller of width and height |
| Resize.Divisor | src/main.go:74-77 | the divisor is at least `x / 800` and at least `y / 600`, and equal to one of them: their maximum |
| Resize.PreviewSize | src/main.go:70-78 | the division fails exactly when long axis < 800 and short axis < 600; otherwise neither target axis exceeds the native one |
| Resize.DivisorZeroIff | src/main.go:74-78 | the divisor is 0 if and only if the image is under both bounds |
| Resize.PreviewSizeScalesBoth | src/main.go:78 | both axes are divided by the same divisor `a >= 1`, rounding down: `t * a <= n < (t + 1) * a` on each axis |
| Resize.PreviewSizeKeepsOrientation | src/main.go:78 | a landscape image gives a landscape preview, a portrait one a portrait preview |
| Resize.PreviewSizeBounds | src/main.go:70-78 | the preview's long axis is under 1600 and its short axis under 1200, and it reaches 800 on the long axis or 600 on the short one |
| Resize.PreviewSizeTranspose | src/main.go:70-78 | swapping width and height gives the same divisor and the swapped preview size |
| Resize.DivisorOneKeepsSize | src/main.go:74-78 | divisor 1 leaves the size unchanged, and holds only for images under 1600 × 1200 that reach one bound |
| Resize.ExampleTwiceTheBounds | src/main.go:70-78 | 1600 × 1200 gets divisor 2 and an 800 × 600 preview; 1200 × 1600 gets 600 × 800 |
| Resize.SmallImageDividesByZero | src/main.go:74-78 | a 640 × 480 image gets divisor 0, so the last step divides by zero |
| Resize.PreviewSizeFloored | src/main.go:74-78 | with the divisor floored at 1: equal to the source's result whenever that is defined, the native size otherwise, and never larger than the image |
| Resize.PreviewSizeFlooredFits | src/main.go:70-78 | with the divisor floored at 1, every preview is under 1600 on its long axis and 1200 on its short one |
| Server.SetCors | src/main.go:21-23 | the three CORS fields carry their fixed values; every other field keeps its value and no other field is added |
| Server.PreviewFilename | src/main.go:131 | the preview file name is the path after `/preview/` if the path starts with it, the whole path otherwise |
| Server.OriginFilename | src/main.go:136 | the origin file name is the path after `/origin/` if the path starts with it, the whole path otherwise |
| Server.ServeHTTP | src/main.go:20-38 | every response carries the CORS fields; the route is `Preflight` exactly for OPTIONS; the file handlers get the trimmed file names |
| Server.FirstMatch | src/main.go:28-37 | reference definition of ordered prefix routing: the first prefix the path has, with none before it matching, or none at all |
| Server.DispatchIsFirstMatch | src/main.go:27-37 | for every method but OPTIONS, the if-chain picks the route of the first matching prefix in the order `/list`, `/preview`, `/origin`; 404 exactly when no prefix matches |
| Server.PreflightShortCircuits | src/main.go:21-26 | an OPTIONS request to any path gets the CORS fields and no route |
| Server.ListWins | src/main.go:28-29 | a path starting with `/list` always goes to the listing handler |
| Server.PreviewPathServesName | src/main.go:28-31 | `/preview/<name>` is served as the preview file `<name>` |
| Server.OriginPathServesName | src/main.go:28-33 | `/origin/<name>` is served as the origin file `<name>` |
| Server.PrefixWithoutSlash | src/main.go:28-37 | `/listing` is a listing request, `/previews.jpg` reaches the preview handler with its path unchanged, `/unknown` gets 404 |
| Listing.MakeEntry | src/main.go:108-116 | a record's `src` is `/preview/` followed by the file name, and trimming that prefix gives the name back; width and height are the preview's |
| Listing.EntrySrcServesPreview | src/main.go:113 | dispatching the path equal to a record's `src` reaches `Preview(name)`, the preview handler for the file the record describes |
| Listing.ExampleEntry | src/main.go:108-116 | the 1600 × 1200 `a.jpg` gets the record `{"/preview/a.jpg", 800, 600}` |

## Findings

| source | as written | input that shows it | evidently intended | confidence | as-written member | corrected member |
|---|---|---|---|---|---|---|
| src/main.go:74-78 | the divisor `max(x / 800, y / 600)` is 0 for images under both bounds, and line 78 divides by it | a 640 × 480 image | images already small enough keep their size (divisor at least 1) | not executed; high | Resize.SmallImageDividesByZero | Resize.PreviewSizeFloored |

In Go an integer division by zero panics. The panic happens inside the
directory-walk callback, so it ends the whole `/list` request, not just that
one file. The HTTP server recovers the panic and closes the connection
without a response. The model does not follow that path; it stops at the
`DivideByZero` outcome.

## Left out

- Directory walks of the photos and preview directories, `os.Stat` existence checks, `os.Mkdir` and the time-stamped preview directory name (src/main.go:41-56, 90-120): filesystem I/O and the wall clock. The "skip if a preview of that name exists" gate is not modelled either.
- Image reading, size queries, resizing and writing through the image library (src/main.go:58-80, 96-107): calls into a foreign library. The native width and height are parameters of the model instead.
- `http.ServeFile`, `filepath.Join`, JSON encoding, the response writer and `ListenAndServe` (src/main.go:121-137, 147): HTTP and serialisation plumbing. A route names the handler and its file name; the bytes served are not modelled.
- The unsynchronised lazy assignment of the preview directory and the check-then-write race between concurrent `/list` requests (src/main.go:42-45, 52-56): concurrency.
- Command-line flag parsing in `main` (src/main.go:140-148).
- Go's `int` is 64 bits wide and the model uses unbounded naturals. Sizes are never negative and the computation only divides, so nothing can overflow.
- Listing.EntrySrcServesPreview: the server routes on `req.URL.Path`, which is the request target after percent-decoding. Line 113 puts the file name into `src` without escaping it. A client that sends `src` as a URL therefore does not always reach that file: `a?b.jpg` is requested as `/preview/a`, the `#1.jpg` of `a#1.jpg` is dropped as a fragment, `50%.jpg` is refused as a malformed request, and `a%20b.jpg` decodes to `a b.jpg`. The lemma is about the path as dispatched, and URL encoding and decoding are not modelled.
- Go strings are byte sequences; the model uses sequences of characters. Every prefix tested or trimmed here is ASCII, so `HasPrefix` and `TrimPrefix` give the same answers on bytes as on characters.
- Go's `http.Header` maps a name to a list of values. `Set` replaces that list with a single value, so header fields are modelled as one value per name.
