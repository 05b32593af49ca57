/** The upload handler itself (the Go struct `Upload`): parsing its Caddyfile block,
    provisioning, and serving one upload request. The filesystem and the placeholder
    replacer are objects the handler changes; everything foreign to the handler (the
    multipart decoder, the UUID generator, filepath.Abs, humanize.ParseBytes, the
    placeholder expansion and the notify environment) is given as an oracle. */
module Handler {
  import opened Base
  import opened Config
  import opened Caddyfile
  import opened Fs
  import opened Repl
  import opened Notify
  import Strconv

  /* ---------------------------------------------------------------- Provision */

  datatype ProvisionError =
    | NoDestDir                           // "no Destination Directory specified (dest_dir)"
    | MkdirFailed                         // the error of os.MkdirAll(DestDir)
    | SizeParse(limit: Field, text: string) // humanize.ParseBytes(text) failed for that limit

  datatype Provisioned = Provisioned(cfg: UploadConfig, err: Option<ProvisionError>)

  /** repl.ReplaceAll(text, "1GB") for the fresh replacer Provision makes, left uninterpreted. */
  type Expand = string -> string

  /** How one size limit ends up: a value with the text field as it then reads, or the
      text field as it then reads with the input ParseBytes refused. */
  datatype Resolution = Resolved(value: int64, text: string) | Unparsable(text: string, input: string)

  /** upload.go:100-126 for one limit: a nonzero value stays; a zero one is read from the
      (expanded) human text when there is one, and from "1GB" otherwise. */
  function Resolve(n: int64, h: string, pb: ParseBytes, expand: Expand): Resolution
  {
    if n == 0 && h != "" then
      var h' := expand(h);
      match pb(h')
      case None => Unparsable(h', h')
      case Some(size) => Resolved(Int64OfUint64(size), h')
    else if n == 0 then
      match pb("1GB")
      case None => Unparsable(h, "1GB")
      case Some(size) => Resolved(Int64OfUint64(size), h)
    else Resolved(n, h)
  }

  /** The field defaults of upload.go:82-98. */
  function Defaults(c: UploadConfig): UploadConfig
  {
    c.(fileFieldName := if c.fileFieldName == "" then "myFile" else c.fileFieldName,
       responseTemplate := if c.responseTemplate == "" then "upload-resp-template.txt" else c.responseTemplate,
       notifyMethod := if c.notifyURL != "" && c.notifyMethod == "" then "GET" else c.notifyMethod)
  }

  /** The two size limits of upload.go:100-154, in order; the first that fails to parse
      ends Provision with the text field already expanded. */
  function ResolveLimits(c: UploadConfig, pb: ParseBytes, expand: Expand): Provisioned
  {
    match Resolve(c.maxFilesize, c.maxFilesizeH, pb, expand)
    case Unparsable(t, input) => Provisioned(c.(maxFilesizeH := t), Some(SizeParse(MaxFilesize, input)))
    case Resolved(v, t) =>
      var c' := c.(maxFilesize := v, maxFilesizeH := t);
      match Resolve(c'.maxFormBuffer, c'.maxFormBufferH, pb, expand)
      case Unparsable(t', input) => Provisioned(c'.(maxFormBufferH := t'), Some(SizeParse(MaxFormBuffer, input)))
      case Resolved(v', t') => Provisioned(c'.(maxFormBuffer := v', maxFormBufferH := t'), None)
  }

  /** Provision on a record, given the regular files on disk (which decide whether
      MkdirAll succeeds). On an error the record holds what was assigned before it. */
  function ProvisionSpec(c: UploadConfig, files: map<string, seq<byte>>, pb: ParseBytes, expand: Expand): Provisioned
  {
    if c.destDir == "" then Provisioned(c, Some(NoDestDir))
    else if !MkdirAllOk(files, c.destDir) then Provisioned(c, Some(MkdirFailed))
    else ResolveLimits(Defaults(c), pb, expand)
  }

  /* ---------------------------------------------------------------- ServeHTTP */

  /** One file of the decoded form: the header's file name and size, and the bytes the
      part holds (the header size is what the client claimed, not a count). */
  datatype FilePart = FilePart(filename: string, size: int64, content: seq<byte>)

  /** The outcome of r.ParseMultipartForm behind http.MaxBytesReader: an error (a body over
      the limit or a malformed one), or the first file of each form field. */
  datatype Form = Rejected | Decoded(parts: map<string, FilePart>)

  /** Everything a request brings from outside the handler. */
  datatype Request = Request(
    form: Form,
    uuids: seq<string>,                 // the names uuid.New() returns, in order
    copyFault: Option<nat>,             // io.Copy fails after that many bytes, or not at all
    notify: NotifyEnv,                  // what SendNotify meets
    abs: string -> Option<string>,      // filepath.Abs
    templateStatOk: bool)               // fileRespTemplate.Stat() succeeds

  /** The step at which the request failed. */
  datatype Stage =
    | FormDecode | FormFile | MakeDir | CreateFile | CopyFile
    | RootDir | AbsPath | TemplateOpen | TemplateStat

  datatype Outcome =
    | Done                        // no response template: nil, nothing written to the client
    | Served(template: string)    // http.ServeContent of that template file
    | Failed(status: nat, stage: Stage)

  /** The status caddyhttp.Error is given at each failing step. */
  function StatusOf(s: Stage): nat
  {
    if s == FormDecode then 413 else 500
  }

  /** The stages that come after the upload is stored. */
  predicate AfterStore(s: Stage)
  {
    s == RootDir || s == AbsPath || s == TemplateOpen || s == TemplateStat
  }

  const MaxFilesizeKey: string := "http.upload.max_filesize"
  const FilenameKey: string := "http.upload.filename"
  const FilesizeKey: string := "http.upload.filesize"
  const DirectoryKey: string := "http.upload.directory"
  const RootKey: string := "http.vars.root"

  /** The index of the first name for which os.Stat reports "does not exist". */
  function FirstFree(dirs: set<string>, files: map<string, seq<byte>>, parent: string, uuids: seq<string>): (r: Option<nat>)
    ensures r.Some? ==> r.value < |uuids| && StatNotExist(dirs, files, Join(parent, uuids[r.value]))
    ensures r.Some? ==> forall j :: 0 <= j < r.value ==> !StatNotExist(dirs, files, Join(parent, uuids[j]))
    ensures r.None? ==> forall j :: 0 <= j < |uuids| ==> !StatNotExist(dirs, files, Join(parent, uuids[j]))
  {
    if uuids == [] then None
    else if StatNotExist(dirs, files, Join(parent, uuids[0])) then Some(0)
    else match FirstFree(dirs, files, parent, uuids[1..])
      case None => None
      case Some(i) => Some(i + 1)
  }

  /** The UUID loop ends when the request gets that far: os.Stat reports "does not
      exist" for some name drawn. When DestDir or one of its ancestors is a regular file,
      every name gives ENOTDIR instead, and the loop never ends. */
  predicate UuidLoopEnds(c: UploadConfig, dirs: set<string>, files: map<string, seq<byte>>, q: Request)
  {
    (c.createUuidDir && q.form.Decoded? && c.fileFieldName in q.form.parts) ==>
      FirstFree(dirs, files, c.destDir, q.uuids).Some?
  }

  /** The directory the upload is written to (upload.go:219-234). */
  function TargetDir(c: UploadConfig, dirs: set<string>, files: map<string, seq<byte>>, uuids: seq<string>): string
    requires c.createUuidDir ==> FirstFree(dirs, files, c.destDir, uuids).Some?
  {
    if c.createUuidDir then Join(c.destDir, uuids[FirstFree(dirs, files, c.destDir, uuids).value]) else c.destDir
  }

  /** The new state of the filesystem, the replacer's store, the outcome, and whether a
      notification was attempted (its result, SendNotify's, is only logged). */
  datatype Effect = Effect(
    out: Outcome,
    dirs: set<string>,
    files: map<string, seq<byte>>,
    vars: map<string, Value>,
    notified: bool)

  /** The response-template step (upload.go:297-347), once the upload is stored. */
  function TemplateStep(c: UploadConfig, paths: set<string>, vars: map<string, Value>, q: Request): Outcome
  {
    if c.responseTemplate == "" then Done
    else if RootKey !in vars then Failed(500, RootDir)
    else match q.abs(ToString(vars[RootKey]))
      case None => Failed(500, AbsPath)
      case Some(root) =>
        var t := Join(root, c.responseTemplate);
        if t !in paths then Failed(500, TemplateOpen)
        else if !q.templateStatOk then Failed(500, TemplateStat)
        else Served(t)
  }

  /** What the storing steps leave: the step that failed, if one did, and the filesystem. */
  datatype Stored = Stored(failed: Option<Stage>, dirs: set<string>, files: map<string, seq<byte>>)

  /** upload.go:236-270: create the directory, create or truncate the file, copy the part. */
  function StoreSpec(dirs: set<string>, files: map<string, seq<byte>>, dir: string, part: FilePart,
                     fault: Option<nat>): Stored
  {
    if !MkdirAllOk(files, dir) then Stored(Some(MakeDir), dirs, files)
    else
      var dirs' := dirs + Ancestors(dir);
      var path := Join(dir, part.filename);
      if !OpenOk(dirs', path) then Stored(Some(CreateFile), dirs', files)
      else match fault
        case Some(k) => Stored(Some(CopyFile), dirs', files[path := part.content[..Min(k, |part.content|)]])
        case None => Stored(None, dirs', files[path := part.content])
  }

  /** ServeHTTP (upload.go:180-348) on values. */
  function Pipeline(c: UploadConfig, dirs: set<string>, files: map<string, seq<byte>>,
                    vars: map<string, Value>, q: Request): Effect
    requires UuidLoopEnds(c, dirs, files, q)
  {
    var vars1 := vars[MaxFilesizeKey := Int(c.maxFilesize)];
    match q.form
    case Rejected => Effect(Failed(413, FormDecode), dirs, files, vars1, false)
    case Decoded(parts) =>
      if c.fileFieldName !in parts then Effect(Failed(500, FormFile), dirs, files, vars1, false)
      else
        var part := parts[c.fileFieldName];
        var dir := TargetDir(c, dirs, files, q.uuids);
        var st := StoreSpec(dirs, files, dir, part, q.copyFault);
        if st.failed.Some? then Effect(Failed(500, st.failed.value), st.dirs, st.files, vars1, false)
        else
          var vars3 := vars1[FilenameKey := Str(part.filename)][FilesizeKey := Int(part.size)][DirectoryKey := Str(dir)];
          Effect(TemplateStep(c, st.dirs + st.files.Keys, vars3, q), st.dirs, st.files, vars3, c.notifyURL != "")
  }

  /** The storing steps on the filesystem object. */
  method Store(fs: FileSystem, dir: string, part: FilePart, fault: Option<nat>) returns (failed: Option<Stage>)
    requires fs.Valid()
    modifies fs
    ensures fs.Valid()
    ensures Stored(failed, fs.dirs, fs.files) == StoreSpec(old(fs.dirs), old(fs.files), dir, part, fault)
  {
    var made := fs.MkdirAll(dir);
    if !made {
      return Some(MakeDir);
    }
    var path := Join(dir, part.filename);
    var created := fs.OpenTruncate(path);
    if !created {
      return Some(CreateFile);
    }
    var written, copied := fs.Copy(path, part.content, fault);
    assert [] + part.content[..written] == part.content[..written];
    if !copied {
      return Some(CopyFile);
    }
    assert part.content[..written] == part.content;
    failed := None;
  }

  /* ---------------------------------------------------------------- the handler */

  class Upload {
    var destDir: string
    var fileFieldName: string
    var maxFilesize: int64
    var maxFilesizeH: string
    var maxFormBuffer: int64
    var maxFormBufferH: string
    var responseTemplate: string
    var notifyURL: string
    var notifyMethod: string
    var createUuidDir: bool
    var insecureSkipVerify: bool
    var caPath: string

    /** The fields as a record. */
    function Config(): UploadConfig
      reads this
    {
      UploadConfig(destDir, fileFieldName, maxFilesize, maxFilesizeH, maxFormBuffer, maxFormBufferH,
                   responseTemplate, notifyURL, notifyMethod, createUuidDir, insecureSkipVerify, caPath)
    }

    /** `var u Upload`: the zero value. */
    constructor ()
      ensures Config() == ZeroConfig
    {
      destDir, fileFieldName, maxFilesize, maxFilesizeH := "", "", 0, "";
      maxFormBuffer, maxFormBufferH, responseTemplate := 0, "", "";
      notifyURL, notifyMethod, createUuidDir, insecureSkipVerify, caPath := "", "", false, false, "";
    }

    /** One arm of the switch in caddyfile.go:17-100, assigning the field in place. */
    method ApplyOption(l: OptionLine, pb: ParseBytes) returns (rest: seq<string>, e: Option<CaddyfileError>)
      modifies this
      ensures var s := Dispatch(old(Config()), l, pb);
        if s.Accept? then e == None && Config() == s.cfg && rest == s.rest
        else e == Some(s.err) && Config() == old(Config())
    {
      var name, a := l.name, l.args;
      rest, e := [], None;
      match OptionOf(name)
      case None =>
        e := Some(Unrecognized(name));
      case Some(o) =>
        if a == [] {
          e := Some(ArgErr(name));
        } else if TextOpt(o) {
          SetTextField(o, a[0]);
          rest := a[1..];
        } else if o.InsecureOpt? {
          insecureSkipVerify := true;
          rest := a[1..];
        } else if |a| != 1 {
          e := Some(ArgErr(name));
        } else if SizeOpt(o) {
          match LimitValue(o, a[0], pb) {
            case None => e := Some(ValueErr(name, a[0]));
            case Some(v) => SetLimitField(o, v);
          }
        } else {
          match Strconv.ParseBool(a[0]) {
            case None => e := Some(ValueErr(name, a[0]));
            case Some(b) => createUuidDir := b;
          }
        }
    }

    /** `d.Args(&field)` for a text option: its field becomes the token. */
    method SetTextField(o: Opt, t: string)
      requires TextOpt(o)
      modifies this
      ensures Config() == SetText(old(Config()), o, t)
    {
      match o
      case DestDirOpt => destDir := t;
      case FileFieldNameOpt => fileFieldName := t;
      case ResponseTemplateOpt => responseTemplate := t;
      case NotifyUrlOpt => notifyURL := t;
      case NotifyMethodOpt => notifyMethod := t;
      case CapathOpt => caPath := t;
    }

    /** A size option's limit becomes the parsed value. */
    method SetLimitField(o: Opt, v: int64)
      requires SizeOpt(o)
      modifies this
      ensures Config() == SetLimit(old(Config()), o, v)
    {
      if o.MaxFilesizeOpt? || o.MaxFilesizeIntOpt? {
        maxFilesize := v;
      } else {
        maxFormBuffer := v;
      }
    }

    /** UnmarshalCaddyfile (caddyfile.go:13-104) for one `upload` block: the lines are read
        in order, the tokens an option leaves on its line are read as the next option, and
        the first error ends the block with the fields assigned so far. */
    method UnmarshalCaddyfile(lines: seq<OptionLine>, pb: ParseBytes) returns (err: Option<CaddyfileError>)
      modifies this
      ensures Config() == Parse(old(Config()), lines, pb).cfg
      ensures err == Parse(old(Config()), lines, pb).err
    {
      var todo := lines;
      while todo != []
        invariant Parse(Config(), todo, pb) == Parse(old(Config()), lines, pb)
        decreases TokenCount(todo)
      {
        var l := todo[0];
        var rest, e := ApplyOption(l, pb);
        if e.Some? {
          return e;
        }
        TokenCountAppend(Requeue(rest), todo[1..]);
        todo := Requeue(rest) + todo[1..];
      }
      err := None;
    }

    /** Provision (upload.go:62-171): the destination directory is required and created,
        the defaults are filled in, and the two size limits are resolved. */
    method Provision(fs: FileSystem, pb: ParseBytes, expand: Expand) returns (err: Option<ProvisionError>)
      requires fs.Valid()
      modifies this, fs
      ensures fs.Valid()
      ensures var r := ProvisionSpec(old(Config()), old(fs.files), pb, expand);
        Config() == r.cfg && err == r.err
      ensures fs.files == old(fs.files)
      ensures fs.dirs == if MkdirAllOk(old(fs.files), old(destDir)) then old(fs.dirs) + Ancestors(old(destDir)) else old(fs.dirs)
    {
      if destDir == "" {
        return Some(NoDestDir);
      }
      var made := fs.MkdirAll(destDir);
      if !made {
        return Some(MkdirFailed);
      }
      ApplyDefaults();
      err := ResolveLimitsInPlace(pb, expand);
    }

    /** The defaulting steps on the fields (upload.go:82-98). */
    method ApplyDefaults()
      modifies this
      ensures Config() == Defaults(old(Config()))
    {
      if fileFieldName == "" {
        fileFieldName := "myFile";
      }
      if responseTemplate == "" {
        responseTemplate := "upload-resp-template.txt";
      }
      if notifyURL != "" && notifyMethod == "" {
        notifyMethod := "GET";
      }
    }

    /** The size-limit steps on the fields (upload.go:100-154). */
    method ResolveLimitsInPlace(pb: ParseBytes, expand: Expand) returns (err: Option<ProvisionError>)
      modifies this
      ensures var r := ResolveLimits(old(Config()), pb, expand);
        Config() == r.cfg && err == r.err
    {
      if maxFilesize == 0 && maxFilesizeH != "" {
        maxFilesizeH := expand(maxFilesizeH);
        match pb(maxFilesizeH) {
          case None => return Some(SizeParse(MaxFilesize, maxFilesizeH));
          case Some(size) => maxFilesize := Int64OfUint64(size);
        }
      } else if maxFilesize == 0 {
        match pb("1GB") {
          case None => return Some(SizeParse(MaxFilesize, "1GB"));
          case Some(size) => maxFilesize := Int64OfUint64(size);
        }
      }
      if maxFormBuffer == 0 && maxFormBufferH != "" {
        maxFormBufferH := expand(maxFormBufferH);
        match pb(maxFormBufferH) {
          case None => return Some(SizeParse(MaxFormBuffer, maxFormBufferH));
          case Some(size) => maxFormBuffer := Int64OfUint64(size);
        }
      } else if maxFormBuffer == 0 {
        match pb("1GB") {
          case None => return Some(SizeParse(MaxFormBuffer, "1GB"));
          case Some(size) => maxFormBuffer := Int64OfUint64(size);
        }
      }
      err := None;
    }

    /** The loop of upload.go:221-233: draw names until os.Stat reports one as not existing. */
    method FreshUuidDir(fs: FileSystem, uuids: seq<string>) returns (dir: string, i: nat)
      requires FirstFree(fs.dirs, fs.files, destDir, uuids).Some?
      ensures i == FirstFree(fs.dirs, fs.files, destDir, uuids).value
      ensures i < |uuids| && dir == Join(destDir, uuids[i])
      ensures StatNotExist(fs.dirs, fs.files, dir)
      ensures forall j :: 0 <= j < i ==> !StatNotExist(fs.dirs, fs.files, Join(destDir, uuids[j]))
    {
      ghost var k := FirstFree(fs.dirs, fs.files, destDir, uuids).value;
      i := 0;
      var free := fs.IsNotExist(Join(destDir, uuids[i]));
      while !free
        invariant i <= k
        invariant free == StatNotExist(fs.dirs, fs.files, Join(destDir, uuids[i]))
        invariant forall j :: 0 <= j < i ==> !StatNotExist(fs.dirs, fs.files, Join(destDir, uuids[j]))
        decreases k - i
      {
        i := i + 1;
        free := fs.IsNotExist(Join(destDir, uuids[i]));
      }
      FirstFreeIsFirst(fs.dirs, fs.files, destDir, uuids, i);
      dir := Join(destDir, uuids[i]);
    }

    /** ServeHTTP (upload.go:180-348). The receiver is a value: the handler's fields do
        not change; the filesystem and the request's replacer do. */
    method ServeHTTP(fs: FileSystem, repl: Replacer, q: Request) returns (out: Outcome, notified: Option<NotifyResult>)
      requires fs.Valid()
      requires UuidLoopEnds(Config(), fs.dirs, fs.files, q)
      modifies fs, repl
      ensures fs.Valid()
      ensures Effect(out, fs.dirs, fs.files, repl.vars, notified.Some?)
           == Pipeline(Config(), old(fs.dirs), old(fs.files), old(repl.vars), q)
      ensures notified.Some? ==> notified.value == SendNotify(Config(), q.notify)
    {
      notified := None;
      repl.Set(MaxFilesizeKey, Int(maxFilesize));
      if q.form.Rejected? {
        return Failed(413, FormDecode), None;
      }
      if fileFieldName !in q.form.parts {
        return Failed(500, FormFile), None;
      }
      var part := q.form.parts[fileFieldName];
      var concatDir := destDir;
      if createUuidDir {
        var draws;
        concatDir, draws := FreshUuidDir(fs, q.uuids);
      }
      var failed := Store(fs, concatDir, part, q.copyFault);
      if failed.Some? {
        return Failed(500, failed.value), None;
      }
      repl.Set(FilenameKey, Str(part.filename));
      repl.Set(FilesizeKey, Int(part.size));
      repl.Set(DirectoryKey, Str(concatDir));
      if notifyURL != "" {
        notified := Some(SendNotify(Config(), q.notify));
      }
      out := Respond(fs, repl, q);
    }

    /** The response-template step (upload.go:297-347); it changes nothing. */
    method Respond(fs: FileSystem, repl: Replacer, q: Request) returns (out: Outcome)
      ensures out == TemplateStep(Config(), fs.Paths(), repl.vars, q)
    {
      if responseTemplate == "" {
        return Done;
      }
      var rootDir, found := repl.GetString(RootKey);
      if !found {
        return Failed(500, RootDir);
      }
      match q.abs(rootDir) {
        case None =>
          out := Failed(500, AbsPath);
        case Some(root) =>
          var t := Join(root, responseTemplate);
          var present := fs.Open(t);
          if !present {
            out := Failed(500, TemplateOpen);
          } else if !q.templateStatOk {
            out := Failed(500, TemplateStat);
          } else {
            out := Served(t);
          }
      }
    }
  }

  /** The index FirstFree finds is the first fresh one: any fresh index with every earlier
      one taken is it. */
  lemma {:induction false} FirstFreeIsFirst(dirs: set<string>, files: map<string, seq<byte>>, parent: string,
                                            uuids: seq<string>, i: nat)
    requires i < |uuids| && StatNotExist(dirs, files, Join(parent, uuids[i]))
    requires forall j :: 0 <= j < i ==> !StatNotExist(dirs, files, Join(parent, uuids[j]))
    ensures FirstFree(dirs, files, parent, uuids) == Some(i)
    decreases i
  {
    if i > 0 {
      assert !StatNotExist(dirs, files, Join(parent, uuids[0]));
      forall j | 0 <= j < i - 1
        ensures !StatNotExist(dirs, files, Join(parent, uuids[1..][j]))
      {
        assert uuids[1..][j] == uuids[j + 1];
      }
      FirstFreeIsFirst(dirs, files, parent, uuids[1..], i - 1);
    }
  }

  /* ---------------------------------------------------------------- Provision properties */

  /** Without a destination directory Provision fails first: no directory is made and no
      field is touched. */
  lemma ProvisionNeedsDestDir(c: UploadConfig, files: map<string, seq<byte>>, pb: ParseBytes, expand: Expand)
    requires c.destDir == ""
    ensures ProvisionSpec(c, files, pb, expand) == Provisioned(c, Some(NoDestDir))
    ensures !MkdirAllOk(files, c.destDir)
  {
  }

  /** After a successful Provision the field name and the template are set, GET is the
      method exactly when a notify URL came without one, the method is kept otherwise, and
      the other text and flag fields are as they were. */
  lemma ProvisionDefaults(c: UploadConfig, files: map<string, seq<byte>>, pb: ParseBytes, expand: Expand)
    requires ProvisionSpec(c, files, pb, expand).err == None
    ensures var d := ProvisionSpec(c, files, pb, expand).cfg;
      && c.destDir != "" && MkdirAllOk(files, c.destDir)
      && d.fileFieldName == (if c.fileFieldName == "" then "myFile" else c.fileFieldName)
      && d.responseTemplate == (if c.responseTemplate == "" then "upload-resp-template.txt" else c.responseTemplate)
      && (d.notifyMethod == "GET" && c.notifyMethod != "GET" <==> c.notifyURL != "" && c.notifyMethod == "")
      && (c.notifyMethod != "" || c.notifyURL == "" ==> d.notifyMethod == c.notifyMethod)
      && d.destDir == c.destDir && d.notifyURL == c.notifyURL && d.caPath == c.caPath
      && d.createUuidDir == c.createUuidDir && d.insecureSkipVerify == c.insecureSkipVerify
  {
  }

  /** The resolution order of one limit: a nonzero value is kept; a zero one with a human
      text is ParseBytes of the expanded text, an error when that fails; with neither it is
      ParseBytes("1GB"). */
  lemma ResolutionOrder(n: int64, h: string, pb: ParseBytes, expand: Expand)
    ensures n != 0 ==> Resolve(n, h, pb, expand) == Resolved(n, h)
    ensures n == 0 && h != "" ==>
      var r := Resolve(n, h, pb, expand);
      && r.text == expand(h)
      && (r.Resolved? <==> pb(expand(h)).Some?)
      && (r.Resolved? ==> r.value == Int64OfUint64(pb(expand(h)).value))
      && (r.Unparsable? ==> r.input == expand(h))
    ensures n == 0 && h == "" ==>
      var r := Resolve(n, h, pb, expand);
      && r.text == ""
      && (r.Resolved? <==> pb("1GB").Some?)
      && (r.Resolved? ==> r.value == Int64OfUint64(pb("1GB").value))
      && (r.Unparsable? ==> r.input == "1GB")
  {
  }

  /** Provision succeeds exactly when the directory can be made and both limits resolve,
      and it then holds the resolved limits; a failing limit is named in the error. */
  lemma ProvisionLimits(c: UploadConfig, files: map<string, seq<byte>>, pb: ParseBytes, expand: Expand)
    ensures var r := ProvisionSpec(c, files, pb, expand);
      var f := Resolve(c.maxFilesize, c.maxFilesizeH, pb, expand);
      var b := Resolve(c.maxFormBuffer, c.maxFormBufferH, pb, expand);
      && (r.err == None <==> c.destDir != "" && MkdirAllOk(files, c.destDir) && f.Resolved? && b.Resolved?)
      && (r.err == None ==>
            r.cfg.maxFilesize == f.value && r.cfg.maxFilesizeH == f.text
            && r.cfg.maxFormBuffer == b.value && r.cfg.maxFormBufferH == b.text)
      && (c.destDir != "" && MkdirAllOk(files, c.destDir) && f.Unparsable? ==>
            r.err == Some(SizeParse(MaxFilesize, f.input)) && r.cfg.maxFilesizeH == f.text)
      && (c.destDir != "" && MkdirAllOk(files, c.destDir) && f.Resolved? && b.Unparsable? ==>
            r.err == Some(SizeParse(MaxFormBuffer, b.input)) && r.cfg.maxFilesize == f.value)
  {
  }

  /** Provisioning its own output again changes nothing, as long as neither limit resolved
      to 0 (a zero limit is resolved anew). Provision leaves the regular files as they are,
      so the second run meets the same ones. */
  lemma ProvisionIdempotent(c: UploadConfig, files: map<string, seq<byte>>, pb: ParseBytes, expand: Expand)
    requires ProvisionSpec(c, files, pb, expand).err == None
    requires ProvisionSpec(c, files, pb, expand).cfg.maxFilesize != 0
    requires ProvisionSpec(c, files, pb, expand).cfg.maxFormBuffer != 0
    ensures var r := ProvisionSpec(c, files, pb, expand);
      ProvisionSpec(r.cfg, files, pb, expand) == r
  {
    var d := ProvisionSpec(c, files, pb, expand).cfg;
    assert Defaults(d) == d;
  }

  /* ---------------------------------------------------------------- ServeHTTP properties */

  /** The storing steps fail only at their own three stages. */
  lemma StoreStages(dirs: set<string>, files: map<string, seq<byte>>, dir: string, part: FilePart,
                    fault: Option<nat>)
    ensures var st := StoreSpec(dirs, files, dir, part, fault);
      st.failed.Some? ==> st.failed.value in {MakeDir, CreateFile, CopyFile}
    ensures var st := StoreSpec(dirs, files, dir, part, fault);
      st.failed != Some(CopyFile) ==> st.files == files || st.failed.None?
    ensures var st := StoreSpec(dirs, files, dir, part, fault);
      st.failed == Some(MakeDir) ==> st.dirs == dirs
  {
  }

  /** The template step fails only with 500, at a stage after the store. */
  lemma TemplateStages(c: UploadConfig, paths: set<string>, vars: map<string, Value>, q: Request)
    ensures var o := TemplateStep(c, paths, vars, q);
      o.Failed? ==> o.status == 500 && AfterStore(o.stage)
  {
  }

  /** Pipeline, read stage by stage: the result once the form holds the file. */
  lemma PipelineOfStored(c: UploadConfig, dirs: set<string>, files: map<string, seq<byte>>,
                         vars: map<string, Value>, q: Request)
    requires UuidLoopEnds(c, dirs, files, q)
    requires q.form.Decoded? && c.fileFieldName in q.form.parts
    ensures var part := q.form.parts[c.fileFieldName];
      var dir := TargetDir(c, dirs, files, q.uuids);
      var st := StoreSpec(dirs, files, dir, part, q.copyFault);
      var vars1 := vars[MaxFilesizeKey := Int(c.maxFilesize)];
      var vars3 := vars1[FilenameKey := Str(part.filename)][FilesizeKey := Int(part.size)][DirectoryKey := Str(dir)];
      var e := Pipeline(c, dirs, files, vars, q);
      && e.dirs == st.dirs && e.files == st.files
      && e.out == (if st.failed.Some? then Failed(500, st.failed.value) else TemplateStep(c, st.dirs + st.files.Keys, vars3, q))
      && e.vars == (if st.failed.Some? then vars1 else vars3)
      && (e.notified <==> st.failed.None? && c.notifyURL != "")
  {
  }

  /** The status of a failure is 413 for a form that could not be read and 500 for every
      other step. */
  lemma FailureStatus(c: UploadConfig, dirs: set<string>, files: map<string, seq<byte>>,
                      vars: map<string, Value>, q: Request)
    requires UuidLoopEnds(c, dirs, files, q)
    ensures var e := Pipeline(c, dirs, files, vars, q);
      && (e.out.Failed? ==> e.out.status == StatusOf(e.out.stage))
      && (e.out.Failed? && e.out.status == 413 <==> q.form.Rejected?)
      && (e.out.Failed? && e.out.stage == FormFile <==> q.form.Decoded? && c.fileFieldName !in q.form.parts)
  {
    if q.form.Decoded? && c.fileFieldName in q.form.parts {
      var part := q.form.parts[c.fileFieldName];
      var dir := TargetDir(c, dirs, files, q.uuids);
      var st := StoreSpec(dirs, files, dir, part, q.copyFault);
      PipelineOfStored(c, dirs, files, vars, q);
      StoreStages(dirs, files, dir, part, q.copyFault);
      var vars3 := vars[MaxFilesizeKey := Int(c.maxFilesize)][FilenameKey := Str(part.filename)]
                       [FilesizeKey := Int(part.size)][DirectoryKey := Str(dir)];
      TemplateStages(c, st.dirs + st.files.Keys, vars3, q);
    }
  }

  /** Failures before the file is created leave every regular file as it was; those before
      MkdirAll leave the directories too. The replacer then has only the size limit set,
      and no notification is sent. */
  lemma EarlyFailureKeepsDisk(c: UploadConfig, dirs: set<string>, files: map<string, seq<byte>>,
                              vars: map<string, Value>, q: Request)
    requires UuidLoopEnds(c, dirs, files, q)
    ensures var e := Pipeline(c, dirs, files, vars, q);
      e.out.Failed? && !AfterStore(e.out.stage) ==>
        && e.vars == vars[MaxFilesizeKey := Int(c.maxFilesize)]
        && !e.notified
        && (e.out.stage != CopyFile ==> e.files == files)
        && (e.out.stage in {FormDecode, FormFile, MakeDir} ==> e.dirs == dirs)
  {
    if q.form.Decoded? && c.fileFieldName in q.form.parts {
      var part := q.form.parts[c.fileFieldName];
      var dir := TargetDir(c, dirs, files, q.uuids);
      var st := StoreSpec(dirs, files, dir, part, q.copyFault);
      PipelineOfStored(c, dirs, files, vars, q);
      StoreStages(dirs, files, dir, part, q.copyFault);
      var vars3 := vars[MaxFilesizeKey := Int(c.maxFilesize)][FilenameKey := Str(part.filename)]
                       [FilesizeKey := Int(part.size)][DirectoryKey := Str(dir)];
      TemplateStages(c, st.dirs + st.files.Keys, vars3, q);
    }
  }

  /** Without the UUID option the upload goes into DestDir itself; with it, into a
      DestDir/<uuid> path os.Stat reports as not existing, the first such among the names
      drawn. */
  lemma UploadDirectory(c: UploadConfig, dirs: set<string>, files: map<string, seq<byte>>, uuids: seq<string>)
    requires c.createUuidDir ==> FirstFree(dirs, files, c.destDir, uuids).Some?
    ensures !c.createUuidDir ==> TargetDir(c, dirs, files, uuids) == c.destDir
    ensures c.createUuidDir ==>
      exists i :: 0 <= i < |uuids| && TargetDir(c, dirs, files, uuids) == Join(c.destDir, uuids[i])
        && StatNotExist(dirs, files, Join(c.destDir, uuids[i]))
        && forall j :: 0 <= j < i ==> !StatNotExist(dirs, files, Join(c.destDir, uuids[j]))
  {
    if c.createUuidDir {
      var i := FirstFree(dirs, files, c.destDir, uuids).value;
      assert TargetDir(c, dirs, files, uuids) == Join(c.destDir, uuids[i]);
    }
  }

  /** With the UUID option and DestDir a regular file, os.Stat of every DestDir/<uuid> is
      ENOTDIR, not "does not exist": no name ends the loop, however many are drawn. */
  lemma UuidLoopSpinsBelowFile(dirs: set<string>, files: map<string, seq<byte>>, parent: string, uuids: seq<string>)
    requires parent != "" && parent in files
    ensures FirstFree(dirs, files, parent, uuids) == None
  {
    forall j | 0 <= j < |uuids|
      ensures !StatNotExist(dirs, files, Join(parent, uuids[j]))
    {
      BelowFileIsNotDir(dirs, files, parent, uuids[j]);
    }
  }

  /** The storing steps succeed exactly when all three do, and write the part's bytes,
      or the prefix copied before a fault. */
  lemma StoreOutcome(dirs: set<string>, files: map<string, seq<byte>>, dir: string, part: FilePart,
                     fault: Option<nat>)
    ensures var st := StoreSpec(dirs, files, dir, part, fault);
      var path := Join(dir, part.filename);
      && (st.failed.None? <==> MkdirAllOk(files, dir) && OpenOk(dirs + Ancestors(dir), path) && fault.None?)
      && (st.failed.None? ==> st.files == files[path := part.content] && st.dirs == dirs + Ancestors(dir))
      && (st.failed == Some(CopyFile) ==>
            fault.Some? && st.files == files[path := part.content[..Min(fault.value, |part.content|)]])
  {
  }

  /** The upload is stored exactly when the directory can be made, the file created and the
      copy completes. It then holds exactly the part's bytes, whatever the file held before,
      no other file changes, and the replacer records the header's name and size (not the
      number of bytes written) and the directory. Later template failures keep all this. */
  lemma StoredUpload(c: UploadConfig, dirs: set<string>, files: map<string, seq<byte>>,
                     vars: map<string, Value>, q: Request)
    requires UuidLoopEnds(c, dirs, files, q)
    requires q.form.Decoded? && c.fileFieldName in q.form.parts
    ensures var e := Pipeline(c, dirs, files, vars, q);
      var part := q.form.parts[c.fileFieldName];
      var dir := TargetDir(c, dirs, files, q.uuids);
      var path := Join(dir, part.filename);
      var stored := !e.out.Failed? || AfterStore(e.out.stage);
      && (stored <==> MkdirAllOk(files, dir) && OpenOk(dirs + Ancestors(dir), path) && q.copyFault.None?)
      && (stored ==>
            && e.files == files[path := part.content]
            && e.dirs == dirs + Ancestors(dir)
            && e.vars == vars[MaxFilesizeKey := Int(c.maxFilesize)][FilenameKey := Str(part.filename)]
                             [FilesizeKey := Int(part.size)][DirectoryKey := Str(dir)])
  {
    var part := q.form.parts[c.fileFieldName];
    var dir := TargetDir(c, dirs, files, q.uuids);
    var st := StoreSpec(dirs, files, dir, part, q.copyFault);
    PipelineOfStored(c, dirs, files, vars, q);
    StoreOutcome(dirs, files, dir, part, q.copyFault);
    StoreStages(dirs, files, dir, part, q.copyFault);
    var vars3 := vars[MaxFilesizeKey := Int(c.maxFilesize)][FilenameKey := Str(part.filename)]
                     [FilesizeKey := Int(part.size)][DirectoryKey := Str(dir)];
    TemplateStages(c, st.dirs + st.files.Keys, vars3, q);
  }

  /** A copy that fails part-way leaves the bytes copied so far in the truncated file. */
  lemma FailedCopyLeavesPrefix(c: UploadConfig, dirs: set<string>, files: map<string, seq<byte>>,
                               vars: map<string, Value>, q: Request)
    requires UuidLoopEnds(c, dirs, files, q)
    requires q.form.Decoded? && c.fileFieldName in q.form.parts
    ensures var e := Pipeline(c, dirs, files, vars, q);
      var part := q.form.parts[c.fileFieldName];
      var path := Join(TargetDir(c, dirs, files, q.uuids), part.filename);
      e.out == Failed(500, CopyFile) ==>
        q.copyFault.Some? && e.files == files[path := part.content[..Min(q.copyFault.value, |part.content|)]]
  {
    var part := q.form.parts[c.fileFieldName];
    var dir := TargetDir(c, dirs, files, q.uuids);
    var st := StoreSpec(dirs, files, dir, part, q.copyFault);
    PipelineOfStored(c, dirs, files, vars, q);
    StoreOutcome(dirs, files, dir, part, q.copyFault);
    var vars3 := vars[MaxFilesizeKey := Int(c.maxFilesize)][FilenameKey := Str(part.filename)]
                     [FilesizeKey := Int(part.size)][DirectoryKey := Str(dir)];
    TemplateStages(c, st.dirs + st.files.Keys, vars3, q);
  }

  /** The notification is attempted exactly when the upload is stored and a notify URL is
      set (ServeHTTP then returns SendNotify's result for the handler's record). */
  lemma NotifyAttempted(c: UploadConfig, dirs: set<string>, files: map<string, seq<byte>>,
                        vars: map<string, Value>, q: Request)
    requires UuidLoopEnds(c, dirs, files, q)
    ensures var e := Pipeline(c, dirs, files, vars, q);
      e.notified <==> c.notifyURL != "" && (!e.out.Failed? || AfterStore(e.out.stage))
  {
    if q.form.Decoded? && c.fileFieldName in q.form.parts {
      var part := q.form.parts[c.fileFieldName];
      var dir := TargetDir(c, dirs, files, q.uuids);
      var st := StoreSpec(dirs, files, dir, part, q.copyFault);
      PipelineOfStored(c, dirs, files, vars, q);
      StoreStages(dirs, files, dir, part, q.copyFault);
      var vars3 := vars[MaxFilesizeKey := Int(c.maxFilesize)][FilenameKey := Str(part.filename)]
                       [FilesizeKey := Int(part.size)][DirectoryKey := Str(dir)];
      TemplateStages(c, st.dirs + st.files.Keys, vars3, q);
    }
  }

  /** Whatever the notification meets, the outcome, the filesystem and the replacer are the
      same: its error is only logged. */
  lemma NotifyDoesNotMatter(c: UploadConfig, dirs: set<string>, files: map<string, seq<byte>>,
                            vars: map<string, Value>, q: Request, env: NotifyEnv)
    requires UuidLoopEnds(c, dirs, files, q)
    ensures UuidLoopEnds(c, dirs, files, q.(notify := env))
    ensures var e := Pipeline(c, dirs, files, vars, q);
      var e' := Pipeline(c, dirs, files, vars, q.(notify := env));
      e'.out == e.out && e'.dirs == e.dirs && e'.files == e.files && e'.vars == e.vars
  {
    var q' := q.(notify := env);
    if q.form.Decoded? && c.fileFieldName in q.form.parts {
      var part := q.form.parts[c.fileFieldName];
      var dir := TargetDir(c, dirs, files, q.uuids);
      var st := StoreSpec(dirs, files, dir, part, q.copyFault);
      PipelineOfStored(c, dirs, files, vars, q);
      PipelineOfStored(c, dirs, files, vars, q');
      var vars3 := vars[MaxFilesizeKey := Int(c.maxFilesize)][FilenameKey := Str(part.filename)]
                       [FilesizeKey := Int(part.size)][DirectoryKey := Str(dir)];
      TemplateIgnoresNotify(c, st.dirs + st.files.Keys, vars3, q, env);
    }
  }

  lemma TemplateIgnoresNotify(c: UploadConfig, paths: set<string>, vars: map<string, Value>, q: Request, env: NotifyEnv)
    ensures TemplateStep(c, paths, vars, q) == TemplateStep(c, paths, vars, q.(notify := env))
  {
  }

  /** A template is served only when the root variable is set, resolves, and names an
      existing template that can be stat'ed; the path served is the template under it. */
  lemma ServedTemplate(c: UploadConfig, paths: set<string>, vars: map<string, Value>, q: Request)
    ensures var o := TemplateStep(c, paths, vars, q);
      o.Served? <==>
        (c.responseTemplate != "" && RootKey in vars && q.abs(ToString(vars[RootKey])).Some?
         && Join(q.abs(ToString(vars[RootKey])).value, c.responseTemplate) in paths && q.templateStatOk)
    ensures var o := TemplateStep(c, paths, vars, q);
      o.Served? ==> o.template == Join(q.abs(ToString(vars[RootKey])).value, c.responseTemplate)
  {
  }

  /** Once provisioned, the handler always has a template: a request it stores is answered
      with the template or a 500, never with the bare nil of an empty template. */
  lemma ProvisionedHandlerUsesTemplate(c: UploadConfig, files0: map<string, seq<byte>>, pb: ParseBytes,
                                       expand: Expand, dirs: set<string>, files: map<string, seq<byte>>,
                                       vars: map<string, Value>, q: Request)
    requires ProvisionSpec(c, files0, pb, expand).err == None
    requires UuidLoopEnds(ProvisionSpec(c, files0, pb, expand).cfg, dirs, files, q)
    ensures Pipeline(ProvisionSpec(c, files0, pb, expand).cfg, dirs, files, vars, q).out != Done
  {
    var d := ProvisionSpec(c, files0, pb, expand).cfg;
    ProvisionDefaults(c, files0, pb, expand);
    TemplateAlwaysAnswers(d, dirs, files, vars, q);
  }

  /** With a template configured, no request ends with the bare nil. */
  lemma TemplateAlwaysAnswers(c: UploadConfig, dirs: set<string>, files: map<string, seq<byte>>,
                              vars: map<string, Value>, q: Request)
    requires c.responseTemplate != ""
    requires UuidLoopEnds(c, dirs, files, q)
    ensures Pipeline(c, dirs, files, vars, q).out != Done
  {
    if q.form.Decoded? && c.fileFieldName in q.form.parts {
      PipelineOfStored(c, dirs, files, vars, q);
    }
  }

  /** Two uploads in a row with the UUID option go to two different directories: the first
      one's directory exists when the second draws its name. */
  lemma UuidUploadsGetDistinctDirs(c: UploadConfig, dirs: set<string>, files: map<string, seq<byte>>,
                                   vars: map<string, Value>, q1: Request, q2: Request)
    requires c.createUuidDir
    requires UuidLoopEnds(c, dirs, files, q1)
    requires q1.form.Decoded? && c.fileFieldName in q1.form.parts
    requires var e1 := Pipeline(c, dirs, files, vars, q1);
      (!e1.out.Failed? || AfterStore(e1.out.stage)) && UuidLoopEnds(c, e1.dirs, e1.files, q2)
    requires q2.form.Decoded? && c.fileFieldName in q2.form.parts
    ensures var e1 := Pipeline(c, dirs, files, vars, q1);
      TargetDir(c, e1.dirs, e1.files, q2.uuids) != TargetDir(c, dirs, files, q1.uuids)
  {
    var e1 := Pipeline(c, dirs, files, vars, q1);
    var d1 := TargetDir(c, dirs, files, q1.uuids);
    StoredUpload(c, dirs, files, vars, q1);
    AncestorsArePrefixes(d1);
    assert d1 != "";
    assert d1 in Ancestors(d1);
    assert d1 in e1.dirs;
  }

  /** Two uploads in a row of the same file name into DestDir. The state is the one a
      stored first upload leaves (StoredUpload): its directory made, its file created and
      holding the first payload. The second upload is then stored exactly when its copy
      completes, and the file holds only the second payload, with the second header's size
      recorded. */
  lemma SecondUploadOverwrites(c: UploadConfig, dirs: set<string>, files: map<string, seq<byte>>, part1: FilePart,
                         dirs1: set<string>, files1: map<string, seq<byte>>, vars1: map<string, Value>, q2: Request)
    requires !c.createUuidDir
    requires q2.form.Decoded? && c.fileFieldName in q2.form.parts
    requires q2.form.parts[c.fileFieldName].filename == part1.filename
    requires MkdirAllOk(files, c.destDir) && OpenOk(dirs + Ancestors(c.destDir), Join(c.destDir, part1.filename))
    requires dirs1 == dirs + Ancestors(c.destDir)
    requires files1 == files[Join(c.destDir, part1.filename) := part1.content]
    ensures var e2 := Pipeline(c, dirs1, files1, vars1, q2);
      var part := q2.form.parts[c.fileFieldName];
      var path := Join(c.destDir, part.filename);
      && (!e2.out.Failed? || AfterStore(e2.out.stage) <==> q2.copyFault.None?)
      && (q2.copyFault.None? ==> e2.files == files[path := part.content])
      && (q2.copyFault.None? ==> FilesizeKey in e2.vars && e2.vars[FilesizeKey] == Int(part.size))
  {
    var part := q2.form.parts[c.fileFieldName];
    var dir := TargetDir(c, dirs1, files1, q2.uuids);
    assert dir == c.destDir;
    var st := StoreSpec(dirs1, files1, dir, part, q2.copyFault);
    SecondStore(dirs, files, dir, part1, dirs1, files1, part, q2.copyFault);
    PipelineOfStored(c, dirs1, files1, vars1, q2);
    var vars3 := vars1[MaxFilesizeKey := Int(c.maxFilesize)][FilenameKey := Str(part.filename)]
                      [FilesizeKey := Int(part.size)][DirectoryKey := Str(dir)];
    TemplateStages(c, st.dirs + st.files.Keys, vars3, q2);
  }

  /** Storing a part of the same name again, into the directory a stored upload made. */
  lemma SecondStore(dirs: set<string>, files: map<string, seq<byte>>, dir: string, part1: FilePart,
                    dirs1: set<string>, files1: map<string, seq<byte>>, part: FilePart, fault: Option<nat>)
    requires part.filename == part1.filename
    requires MkdirAllOk(files, dir) && OpenOk(dirs + Ancestors(dir), Join(dir, part1.filename))
    requires dirs1 == dirs + Ancestors(dir)
    requires files1 == files[Join(dir, part1.filename) := part1.content]
    ensures var st := StoreSpec(dirs1, files1, dir, part, fault);
      && (st.failed.None? <==> fault.None?)
      && (st.failed.Some? ==> st.failed == Some(CopyFile))
      && (st.failed.None? ==> st.files == files[Join(dir, part.filename) := part.content])
  {
    var path := Join(dir, part.filename);
    SecondUploadState(dirs, files, dir, part1, dirs1, files1);
    assert files1[path := part.content] == files[path := part.content];
  }

  /** The state a stored upload leaves lets the same upload path be made and created again. */
  lemma SecondUploadState(dirs: set<string>, files: map<string, seq<byte>>, dir: string, part1: FilePart,
                          dirs1: set<string>, files1: map<string, seq<byte>>)
    requires MkdirAllOk(files, dir) && OpenOk(dirs + Ancestors(dir), Join(dir, part1.filename))
    requires dirs1 == dirs + Ancestors(dir)
    requires files1 == files[Join(dir, part1.filename) := part1.content]
    ensures MkdirAllOk(files1, dir) && dirs1 + Ancestors(dir) == dirs1
    ensures OpenOk(dirs1 + Ancestors(dir), Join(dir, part1.filename))
  {
    AncestorsArePrefixes(dir);
    assert Join(dir, part1.filename) !in Ancestors(dir);
  }
}
