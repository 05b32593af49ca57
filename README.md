# caddyv2-upload in Dafny

A model of the `upload` HTTP handler for Caddy v2 (git001/caddyv2-upload), with proofs
about the model. The handler takes one file from a multipart form and writes it below a
configured directory, optionally inside a fresh UUID-named subdirectory. It records the
file's name, size and directory in the request's placeholder replacer, optionally calls a
webhook, and optionally answers with a response template. Four pieces of the handler are
modelled:

- **The Caddyfile block** (`UnmarshalCaddyfile`). The block is a sequence of option lines,
  each a name followed by the tokens written after it on the same line. Each option keeps
  the argument-count rule of the code: `d.Args` and `d.NextArg` need at least one token,
  `d.AllArgs` needs exactly one. Tokens an option does not consume are read as the next
  option name, as the dispenser's `NextBlock` does. The loop in
  `Handler.Upload.UnmarshalCaddyfile` assigns the fields in place, and it is proved equal
  to the function `Caddyfile.Parse`. `strconv.ParseInt` (base 10, 64 bits) and
  `strconv.ParseBool` are modelled exactly. `humanize.ParseBytes` is a parameter.
- **Provision.** The destination directory is required and made with `MkdirAll`. The
  field name, the template and the notify method get their defaults. The two size limits
  are resolved from the integer value, the human text, or `"1GB"`. The method works field
  by field and is proved equal to `Handler.ProvisionSpec`.
- **ServeHTTP.** The filesystem (`Fs.FileSystem`: a set of directories and a map from file
  paths to bytes) and the replacer (`Repl.Replacer`: a map from keys to values) are objects
  the handler changes. The request is a record of oracles: the multipart decode result,
  the UUIDs drawn, a copy fault, the notify environment, `filepath.Abs`, and whether the
  template can be stat'ed. The method, including the UUID retry loop, is proved equal to
  `Handler.Pipeline`. The lemmas state the status mapping, what each failure leaves on
  disk, where the file goes, the overwrite semantics, the recorded metadata, and that the
  notification never matters.
- **SendNotify.** The webhook's guards are a pure function over an environment record:
  URL parse, insecure without https, capath without https, CA file read, PEM parse,
  request build, transport. It returns the first guard that fails, and the request it
  hands to the transport, if any.

Integers are unbounded in Dafny. The code's `int64(size)` conversion of a `uint64` is
written out as two's-complement wrap-around (`Base.Int64OfUint64`). Paths are plain
strings, compared textually, exactly as the code concatenates them (`dir + "/" + name`).
The code does no path sanitisation, and the model claims no confinement.

Behaviour of the code worth noting:

- ServeHTTP never calls the next handler. Without a template it returns nil.
- The stored file keeps the client's file name, and the directory comes only from the configuration.
- The client's file name is joined to the directory unchecked.
- The template open and stat failures return status 500 wrapping a nil `io_err`. Only the
  status is modelled.
- The bare `insecure` shown in the directive's doc comment (caddyfile.go:113) is an
  argument error. `insecure false` turns verification skipping on.

## Model

| member | source | states |
|---|---|---|
| `Base.Int64OfUint64` | upload.go:113 | `int64(size)` keeps the value modulo 2^64, is 0 exactly for 0, and is negative exactly above the int64 maximum |
| `Strconv.DigitsValue` | caddyfile.go:42 | a value exists exactly for a non-empty run of decimal digits; the reference reading behind ParseInt |
| `Strconv.ParseInt` | caddyfile.go:42 | the empty text and a lone sign are rejected; an accepted text is an optional sign then digits only, and a negative result came with `-` |
| `Strconv.ParseIntOfFormatInt` | caddyfile.go:62 | every int64 written in decimal is read back as itself |
| `Strconv.ParseIntRejectsOverflow` | caddyfile.go:62-65 | a well-formed decimal beyond the int64 range, positive or negative, is rejected |
| `Strconv.DigitsValueOfFormatNat` | caddyfile.go:42 | the digit run of any natural number reads back as that number (the induction behind the round trip) |
| `Strconv.ParseIntOfDigits` | caddyfile.go:62 | an unsigned digit run parses to its value exactly when that fits in int64 |
| `Strconv.ParseIntOfNegative` | caddyfile.go:62 | `-` and a digit run parse to the negated value exactly when that fits in int64 |
| `Strconv.ParseIntOfPlus` | caddyfile.go:62 | an explicit `+` sign is accepted and gives the same result as the digit run without it |
| `Strconv.ParseBool` | caddyfile.go:93 | true for exactly `1 t T TRUE true True`, false for exactly `0 f F FALSE false False`, an error otherwise |
| `Caddyfile.LimitValue` | caddyfile.go:27-66 | reference definition of what a size option stores: ParseBytes converted by `int64(...)` for `max_filesize` and `max_form_buffer`, ParseInt for the `_int` spellings; SizeOptionParsing and DispatchOpt are proved against it |
| `Caddyfile.Dispatch` | caddyfile.go:17-100 | reference definition of the switch on the option name: a name outside the twelve case labels goes to the default arm, a known one to its own arm; DispatchOpt's contract and UnknownOptionRejected state what each arm does |
| `Caddyfile.DispatchOpt` | caddyfile.go:17-97 | one switch arm: a missing argument, or a count other than one for the AllArgs options, is an argument error; an accepted line consumes one token and leaves the rest of its line; only the option's own field changes; text options store the token, `insecure` stores true, size options store the parsed limit and accept exactly when it parses, and a token that does not parse yields a value error naming option and token |
| `Caddyfile.SetText` | caddyfile.go:19-87 | a text option's assignment stores the token in that option's field and leaves every other field alone |
| `Caddyfile.SetLimit` | caddyfile.go:27-66 | a size option's assignment stores the value in its limit field and leaves every other field alone |
| `Caddyfile.Parse` | caddyfile.go:15-103 | reference definition of the block: each line goes through Dispatch, the tokens an arm leaves are read as the next line, and the first error ends the block with the record as assigned so far; UnmarshalCaddyfile is proved equal to it and the lemmas below are about it |
| `Caddyfile.ParseAppend` | caddyfile.go:15-103 | parsing two runs of lines is parsing the first and then, if it succeeded, the second from the record it left |
| `Caddyfile.ParseFrame` | caddyfile.go:17-100 | a field keeps its prior value, on the error path too, unless some token of the block is an option that assigns it |
| `Caddyfile.LaterLimitLineWins` | caddyfile.go:27-66 | after a successful parse a limit holds the value of its last size line, whichever of the two spellings set it |
| `Caddyfile.UnknownOptionRejected` | caddyfile.go:98-99 | a name outside the recognised set is an "unrecognized" error and leaves the record as it was |
| `Caddyfile.ArgumentCountRejected` | caddyfile.go:19-92 | a missing argument, or a second one for an AllArgs option, is an argument error that leaves the record as it was |
| `Caddyfile.TextOptionAssigns` | caddyfile.go:19-87 | a text option with one token stores it in its own field and nothing else changes |
| `Caddyfile.ExtraTokensAreReadAsOptions` | caddyfile.go:15-22 | the tokens after the one a Args/NextArg option consumes are parsed as the next option line |
| `Caddyfile.SizeOptionParsing` | caddyfile.go:27-66 | a size option succeeds iff its token parses (ParseBytes converted to int64, or ParseInt for `_int`), stores that value, and otherwise reports the token and changes nothing |
| `Caddyfile.CreateUuidDirParsing` | caddyfile.go:88-97 | `create_uuid_dir` stores ParseBool of its token, and any other spelling is a value error |
| `Caddyfile.InsecureIgnoresItsArgument` | caddyfile.go:79-83 | `insecure` with one token sets verification skipping to true whatever the token says |
| `Caddyfile.SecondDestDirArgumentRejected` | caddyfile.go:19-22 | `dest_dir /srv /tmp` sets the directory to `/srv`, then rejects `/tmp` as an unknown option |
| `Caddyfile.InsecureExamples` | caddyfile.go:79-83 | `insecure false` sets skipping on; a bare `insecure` is an argument error |
| `Caddyfile.ParseLeavesHumanSizes` | caddyfile.go:47-56 | no option writes the human size texts: `max_filesize` and `max_form_buffer` store numbers |
| `Fs.AncestorsArePrefixes` | upload.go:74 | the paths MkdirAll makes are non-empty prefixes of the path, the path itself among them |
| `Fs.LastSlash` | upload.go:247 | the index found is a `/` with none after it, or there is no `/` at all |
| `Fs.CreatableAfterMkdirAll` | upload.go:236-256 | right after MkdirAll of a directory succeeds, a plain file name in it can be created unless that path is a directory |
| `Fs.FileSystem.IsNotExist` | upload.go:226 | `os.IsNotExist(os.Stat(p))` holds exactly when p is not a directory and no prefix of p on the lookup path, p included, is a regular file (a file on the way is ENOTDIR, not ENOENT) |
| `Fs.BelowFileIsNotDir` | upload.go:226 | a path below a regular file is never reported as not existing |
| `Fs.ExistingIsNotAbsent` | upload.go:226 | an existing directory or file is never reported as not existing |
| `Fs.FileSystem.MkdirAll` | upload.go:236 | fails on the empty path or when a needed prefix is a file; otherwise adds every prefix as a directory and leaves files alone |
| `Fs.FileSystem.OpenTruncate` | upload.go:247 | succeeds iff the path is not a directory, does not end in `/`, and its parent exists; then the file exists and is empty |
| `Fs.FileSystem.Copy` | upload.go:262 | appends the bytes; a fault after k bytes leaves min(k, size) of them and reports an error |
| `Fs.FileSystem.Open` | upload.go:320 | opening for reading succeeds iff the path exists |
| `Repl.Replacer.Set` | upload.go:283-285 | the key now maps to the value and every other key is unchanged |
| `Repl.Replacer.GetString` | upload.go:299 | found iff the key is present, and the value is then its text |
| `Notify.SendNotify` | notify.go:14-104 | reference definition of the guard chain in code order; its properties are stated by SendNotifyOutcome against the guards read one by one (Fails, Rank) |
| `Notify.SendNotifyOutcome` | notify.go:14-112 | the error is the first guard in code order that fails; nothing is sent unless every preflight guard passes; the request carries the configured method, no body, `User-Agent: MyUpload-Handler_v0.12`, and TLS options only over https |
| `Notify.AnyStatusIsSuccess` | notify.go:95-111 | once a request is sent, any response status is success |
| `Notify.TlsOptionsNeedHttps` | notify.go:35-54 | `insecure` or `capath` with a non-https URL is the matching error and nothing is sent, whatever the later steps would do |
| `Handler.FirstFree` | upload.go:225-231 | the index found names a path os.Stat reports as not existing and no earlier name does; none is found only if no name does |
| `Handler.UuidLoopSpinsBelowFile` | upload.go:221-231 | with DestDir a regular file no drawn name ends the loop, so such a request never gets past it (ServeHTTP's precondition excludes it) |
| `Handler.TargetDir` | upload.go:219-234 | reference definition of the upload directory: DestDir, or DestDir/<uuid> for the name FirstFree picks; UploadDirectory states what it means |
| `Handler.StoreSpec` | upload.go:236-270 | reference definition of the storing steps: MkdirAll, then create or truncate, then the copy, each failure named by its stage; StoreOutcome and StoreStages state its properties |
| `Handler.TemplateStep` | upload.go:297-347 | reference definition of the template step; ServedTemplate and TemplateStages state its properties |
| `Handler.Pipeline` | upload.go:180-348 | reference definition of ServeHTTP on values: size limit recorded, form, field, directory, store, replacer updates, notification flag, template; ServeHTTP is proved equal to it and the lemmas below are about it |
| `Handler.FirstFreeIsFirst` | upload.go:225-231 | the first fresh index is the one FirstFree finds |
| `Handler.Store` | upload.go:236-270 | the three storing steps on the filesystem object agree with StoreSpec |
| `Handler.StoreOutcome` | upload.go:236-270 | the storing steps succeed iff MkdirAll, create and copy all do; success leaves exactly the part's bytes in the file, a copy fault the prefix copied |
| `Handler.Upload.constructor` | caddyfile.go:119 | `var u Upload` is the zero record |
| `Handler.Upload.ApplyOption` | caddyfile.go:17-100 | one switch arm assigns the fields in place as DispatchOpt says, and leaves them unchanged on an error |
| `Handler.Upload.UnmarshalCaddyfile` | caddyfile.go:13-104 | the loop leaves the fields and the error that Parse gives for the block |
| `Handler.Upload.SetTextField` | caddyfile.go:19-87 | `d.Args(&field)` changes only the option's own field |
| `Handler.Upload.SetLimitField` | caddyfile.go:27-66 | a size option changes only its own limit field |
| `Handler.Upload.Provision` | upload.go:62-171 | the fields and the error are those of ProvisionSpec; files are untouched, and DestDir's prefixes become directories exactly when MkdirAll succeeds |
| `Handler.Upload.ApplyDefaults` | upload.go:82-98 | the fields become Defaults of the old ones |
| `Handler.Upload.ResolveLimitsInPlace` | upload.go:100-154 | the fields and the error are those of ResolveLimits |
| `Handler.Upload.FreshUuidDir` | upload.go:221-233 | the loop stops at the first drawn name os.Stat reports as not existing and returns that path; every earlier name exists or lies below a file |
| `Handler.Upload.ServeHTTP` | upload.go:180-348 | outcome, filesystem and replacer are those of Pipeline, a notification is attempted exactly when Pipeline says so, and its result is SendNotify's for the handler's record; the handler's fields do not change |
| `Handler.Upload.Respond` | upload.go:297-347 | the template step agrees with TemplateStep and changes nothing |
| `Handler.Resolve` | upload.go:100-126 | reference definition of one size limit's resolution; ResolutionOrder states its cases |
| `Handler.Defaults` | upload.go:82-98 | reference definition of the three defaults; ProvisionDefaults states them |
| `Handler.ResolveLimits` | upload.go:100-154 | reference definition of the two limits resolved in order, the first failure ending Provision; ProvisionLimits states it |
| `Handler.ProvisionSpec` | upload.go:62-171 | reference definition of Provision on a record; Provision is proved equal to it and the lemmas below are about it |
| `Handler.ProvisionNeedsDestDir` | upload.go:68-72 | an empty DestDir is an error before anything else: no field changes and no directory is made |
| `Handler.ProvisionDefaults` | upload.go:82-98 | after success an empty field name is `myFile`, an empty template is `upload-resp-template.txt`, the method becomes GET exactly when a URL came without one and is kept otherwise (an empty method with no URL stays empty), and the other fields are kept |
| `Handler.ResolutionOrder` | upload.go:100-126 | a nonzero limit is kept; a zero one with a human text is ParseBytes of the expanded text, or an error; with neither it is ParseBytes("1GB") |
| `Handler.ProvisionLimits` | upload.go:100-154 | Provision succeeds iff the directory can be made and both limits resolve; it then holds them, and a failing limit is named in the error |
| `Handler.ProvisionIdempotent` | upload.go:68-154 | provisioning the provisioned record again gives the same record, when neither limit resolved to 0 |
| `Handler.StoreStages` | upload.go:236-270 | storing fails only at MkdirAll, create or copy; only a failed copy changes the files of a failed store; a failed MkdirAll makes no directory |
| `Handler.TemplateStages` | upload.go:297-341 | the template step fails only with 500, after the store |
| `Handler.FailureStatus` | upload.go:195-341 | a failure's status is 413 exactly for an unreadable form and 500 for every other step; FormFile fails exactly when the field is missing |
| `Handler.EarlyFailureKeepsDisk` | upload.go:192-270 | before the store the replacer holds only the size limit and nothing is sent; no file changes unless the copy fails; no directory is made before MkdirAll |
| `Handler.UploadDirectory` | upload.go:219-234 | without the UUID option the target is DestDir; with it, DestDir/<uuid> for the first drawn name os.Stat reports as not existing |
| `Handler.StoredUpload` | upload.go:236-285 | stored iff MkdirAll, create and copy succeed; then the file holds exactly the uploaded bytes, whatever it held before, no other file changes, and the replacer records name, header size and directory |
| `Handler.FailedCopyLeavesPrefix` | upload.go:262-270 | a failed copy leaves the created file holding the bytes copied so far |
| `Handler.NotifyAttempted` | upload.go:287-295 | the webhook is called exactly when the upload is stored and a notify URL is set |
| `Handler.NotifyDoesNotMatter` | upload.go:287-295 | whatever the webhook meets, outcome, filesystem and replacer are the same |
| `Handler.TemplateIgnoresNotify` | upload.go:297-347 | the template step does not depend on the notify environment |
| `Handler.ServedTemplate` | upload.go:297-345 | the template is served iff the root is set, resolves, and names an existing template that can be stat'ed, and that path is served |
| `Handler.ProvisionedHandlerUsesTemplate` | upload.go:89-94 | a provisioned handler always has a template, so a request never ends with the bare nil |
| `Handler.TemplateAlwaysAnswers` | upload.go:297-347 | with a template configured, a request never ends with the bare nil |
| `Handler.UuidUploadsGetDistinctDirs` | upload.go:221-236 | two uploads in a row with the UUID option go to different directories |
| `Handler.SecondUploadOverwrites` | upload.go:247-262 | after a stored upload, a second one of the same name into DestDir is stored iff its copy completes; the files are then the original ones with only the second payload at that path, and the second header's size is recorded |

## Left out

- Caddy module plumbing is left out: `init`, `CaddyModule`, the no-op `Validate`, the interface guards and the `parseCaddyfile` wrapper. They are framework glue. Only its `var u Upload` is modelled, as the zero-value constructor.
- The dispenser's cursor is left out: braces, nesting, the `upload` directive token, several directive segments (the outer `for d.Next()`), and the file and line in error messages. The input is one block's option lines, already split into tokens.
- Error messages are modelled by their kind, the option and the token, not by their text.
- `Repl.Replacer.GetString`: Caddy's placeholder providers are not modelled. The replacer is a plain map, so a key is found only when it was set. In Caddy the HTTP provider answers every `http.vars.*` key, with an empty value when the variable is unset.
- `Handler.TemplateStep`: the `RootDir` failure (upload.go:299-301) cannot be reached in a running server, because of the providers above. There an unset root behaves as the model's `vars[RootKey] == Str("")`: `filepath.Abs("")` is the working directory, and the template is looked for there.
- `humanize.ParseBytes` is an uninterpreted partial function. So is `Replacer.ReplaceAll(text, "1GB")` on Provision's fresh replacer (`Handler.Expand`). Both are foreign libraries.
- Multipart decoding and `http.MaxBytesReader` are one oracle: the form could not be read, or the first file of each field. No body length is modelled.
- `http.ServeContent` (conditional GET, ranges) is only the `Served` outcome.
- UUID randomness is an oracle sequence of names. The Stat-then-MkdirAll race between concurrent requests is out of scope, being concurrency.
- `os.Stat` has two failures in the model: ENOENT, and ENOTDIR for a path below a regular file. EACCES and I/O errors are not modelled, because permissions are not. With such an error the code's UUID loop would spin just as it does below a file.
- `Fs.FileSystem.Valid` only keeps directories and files apart. It admits states no disk has, such as a file `a` beside a directory `a/b`. In such a state `MkdirAllOk`'s check for a file prefix is not what `os.MkdirAll` would report.
- `Handler.Upload.FreshUuidDir` requires that os.Stat reports some drawn name as not existing. The code loops until one does, and a finite oracle cannot promise that on its own. `Handler.UuidLoopEnds` states this requirement for ServeHTTP and Pipeline, only for requests that reach the loop. The requirement also excludes runs the code never finishes: with DestDir a regular file, every name gives ENOTDIR and the loop spins forever (`Handler.UuidLoopSpinsBelowFile`). The model describes only requests that end.
- Path normalisation is not modelled: `..`, repeated or trailing `/` in the directory, symbolic links, and `filepath.Base` of the client's file name. Paths are compared as text.
- Permissions, mode bits (0755), disk-full and other write failures are left out. Only a copy fault after some number of bytes is modelled.
- TLS pool construction, x509 parsing, the HTTP client, transport tuning, timeouts and the request context are network and crypto. The CA file is "unreadable" or "holds n certificates"; the request build and the transport are oracles.
- zap logging and the request UUID (`http.request.uuid`) are left out; the UUID is used only in log lines.
- `Handler.ProvisionIdempotent`: assumes both resolved limits are nonzero. A limit that resolves to 0 (for instance a text ParseBytes reads as 0) is resolved again on a second run. That second run expands the text again and may parse a different value.
- `Notify.SendNotifyOutcome`: the request's URL is the parsed URL's text as the environment gives it. `url.String()` re-serialisation is not modelled.
