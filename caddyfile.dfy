/** The `upload` directive block (Upload.UnmarshalCaddyfile), as a function over the
    option lines of the block. A line is an option name followed by the argument tokens
    written on the same line. The dispenser's Args and NextArg consume only the tokens
    they fill; whatever is left on the line is read by the next NextBlock step as the
    next option name, so a leftover is dispatched again as a line of its own. */
module Caddyfile {
  import opened Base
  import opened Config
  import Strconv

  datatype OptionLine = OptionLine(name: string, args: seq<string>)

  datatype CaddyfileError =
    | ArgErr(option: string)                   // d.ArgErr(): wrong number of arguments
    | ValueErr(option: string, value: string)  // d.Errf("parsing ...")
    | Unrecognized(option: string)             // d.Errf("unrecognized servers option ...")

  /** One switch arm: the updated record and the tokens left on the line, or an error. */
  datatype Step = Accept(cfg: UploadConfig, rest: seq<string>) | Reject(err: CaddyfileError)

  /** The record after the block and the error, if any. On an error the record keeps
      what the lines before it assigned, as the Go receiver does. */
  datatype ParseResult = ParseResult(cfg: UploadConfig, err: Option<CaddyfileError>)

  /** humanize.ParseBytes, left uninterpreted: a partial map from text to a byte count. */
  type ParseBytes = string -> Option<uint64>

  /** The recognised option names. */
  datatype Opt =
    | DestDirOpt | FileFieldNameOpt | MaxFormBufferOpt | MaxFormBufferIntOpt | MaxFilesizeOpt
    | MaxFilesizeIntOpt | ResponseTemplateOpt | NotifyUrlOpt | NotifyMethodOpt | InsecureOpt
    | CapathOpt | CreateUuidDirOpt

  /** The case labels of the switch; None for a name outside the recognised set. */
  function OptionOf(name: string): Option<Opt>
  {
    match name
    case "dest_dir" => Some(DestDirOpt)
    case "file_field_name" => Some(FileFieldNameOpt)
    case "max_form_buffer" => Some(MaxFormBufferOpt)
    case "max_form_buffer_int" => Some(MaxFormBufferIntOpt)
    case "max_filesize" => Some(MaxFilesizeOpt)
    case "max_filesize_int" => Some(MaxFilesizeIntOpt)
    case "response_template" => Some(ResponseTemplateOpt)
    case "notify_url" => Some(NotifyUrlOpt)
    case "notify_method" => Some(NotifyMethodOpt)
    case "insecure" => Some(InsecureOpt)
    case "capath" => Some(CapathOpt)
    case "create_uuid_dir" => Some(CreateUuidDirOpt)
    case _ => None
  }

  /** The field each option assigns. */
  function FieldOfOpt(o: Opt): Field
  {
    match o
    case DestDirOpt => DestDir
    case FileFieldNameOpt => FileFieldName
    case MaxFormBufferOpt => MaxFormBuffer
    case MaxFormBufferIntOpt => MaxFormBuffer
    case MaxFilesizeOpt => MaxFilesize
    case MaxFilesizeIntOpt => MaxFilesize
    case ResponseTemplateOpt => ResponseTemplate
    case NotifyUrlOpt => NotifyURL
    case NotifyMethodOpt => NotifyMethod
    case InsecureOpt => InsecureSkipVerify
    case CapathOpt => CAPath
    case CreateUuidDirOpt => CreateUuidDir
  }

  function FieldOf(name: string): Option<Field>
  {
    match OptionOf(name)
    case None => None
    case Some(o) => Some(FieldOfOpt(o))
  }

  /** Options read with d.AllArgs(&s): exactly one token must follow. The others are
      read with d.Args(&field) or d.NextArg() and need at least one. */
  predicate ExactlyOneArg(o: Opt)
  {
    o.MaxFormBufferOpt? || o.MaxFormBufferIntOpt? || o.MaxFilesizeOpt? || o.MaxFilesizeIntOpt?
    || o.CreateUuidDirOpt?
  }

  /** The size options: a human spelling read by humanize.ParseBytes, or an `_int` one
      read by strconv.ParseInt. */
  predicate SizeOpt(o: Opt)
  {
    o.MaxFormBufferOpt? || o.MaxFormBufferIntOpt? || o.MaxFilesizeOpt? || o.MaxFilesizeIntOpt?
  }

  /** The options whose first argument is stored as it is. */
  predicate TextOpt(o: Opt)
  {
    o.DestDirOpt? || o.FileFieldNameOpt? || o.ResponseTemplateOpt? || o.NotifyUrlOpt?
    || o.NotifyMethodOpt? || o.CapathOpt?
  }

  /** The text value of a string field. */
  function Text(c: UploadConfig, f: Field): string
  {
    match f
    case DestDir => c.destDir
    case FileFieldName => c.fileFieldName
    case ResponseTemplate => c.responseTemplate
    case NotifyURL => c.notifyURL
    case NotifyMethod => c.notifyMethod
    case CAPath => c.caPath
    case MaxFilesizeH => c.maxFilesizeH
    case MaxFormBufferH => c.maxFormBufferH
    case _ => ""
  }

  /** The value of one of the two size limits. */
  function Limit(c: UploadConfig, f: Field): int64
  {
    if f == MaxFilesize then c.maxFilesize else if f == MaxFormBuffer then c.maxFormBuffer else 0
  }

  /** What a size option stores for its argument: humanize.ParseBytes converted to int64
      for the human spellings, strconv.ParseInt for the `_int` ones. */
  function LimitValue(o: Opt, arg: string, pb: ParseBytes): Option<int64>
    requires SizeOpt(o)
  {
    if o.MaxFilesizeOpt? || o.MaxFormBufferOpt? then
      match pb(arg)
      case None => None
      case Some(n) => Some(Int64OfUint64(n))
    else Strconv.ParseInt(arg)
  }

  /** The switch at caddyfile.go:17-100 for one option line: an unknown name is an
      "unrecognized" error, a known one goes to its own arm. */
  function Dispatch(c: UploadConfig, line: OptionLine, pb: ParseBytes): Step
  {
    match OptionOf(line.name)
    case None => Reject(Unrecognized(line.name))
    case Some(o) => DispatchOpt(c, o, line.name, line.args, pb)
  }

  function DispatchOpt(c: UploadConfig, o: Opt, name: string, a: seq<string>, pb: ParseBytes): (r: Step)
    // every option needs an argument; the AllArgs ones exactly one
    ensures a == [] ==> r == Reject(ArgErr(name))
    ensures ExactlyOneArg(o) && |a| != 1 ==> r == Reject(ArgErr(name))
    // an accepted line consumes one token and leaves the rest of the line
    ensures !ExactlyOneArg(o) && a != [] ==> r.Accept? && r.rest == a[1..]
    ensures ExactlyOneArg(o) && r.Accept? ==> r.rest == []
    ensures r.Accept? ==> a != [] && (r.rest == a[1..] || r.rest == [])
    // only the option's own field changes
    ensures r.Accept? ==> forall f :: FieldOfOpt(o) != f ==> Agree(c, r.cfg, f)
    // what is stored
    ensures TextOpt(o) && r.Accept? ==> Text(r.cfg, FieldOfOpt(o)) == a[0]
    ensures o.InsecureOpt? && r.Accept? ==> r.cfg.insecureSkipVerify
    ensures SizeOpt(o) && |a| == 1 ==> (r.Accept? <==> LimitValue(o, a[0], pb).Some?)
    ensures SizeOpt(o) && r.Accept? ==> Limit(r.cfg, FieldOfOpt(o)) == LimitValue(o, a[0], pb).value
    ensures o.CreateUuidDirOpt? && |a| == 1 ==> (r.Accept? <==> Strconv.ParseBool(a[0]).Some?)
    ensures o.CreateUuidDirOpt? && r.Accept? ==> r.cfg.createUuidDir == Strconv.ParseBool(a[0]).value
    // a value that does not parse is reported with the option and the token
    ensures (SizeOpt(o) || o.CreateUuidDirOpt?) && |a| == 1 && r.Reject? ==> r.err == ValueErr(name, a[0])
  {
    if a == [] then Reject(ArgErr(name))
    else if TextOpt(o) then Accept(SetText(c, o, a[0]), a[1..])
    else if o.InsecureOpt? then Accept(c.(insecureSkipVerify := true), a[1..])
    else if |a| != 1 then Reject(ArgErr(name))
    else if SizeOpt(o) then
      (match LimitValue(o, a[0], pb)
       case None => Reject(ValueErr(name, a[0]))
       case Some(v) => Accept(SetLimit(c, o, v), []))
    else
      (match Strconv.ParseBool(a[0])
       case None => Reject(ValueErr(name, a[0]))
       case Some(b) => Accept(c.(createUuidDir := b), []))
  }

  /** The assignment of a text option's field. */
  function SetText(c: UploadConfig, o: Opt, t: string): (d: UploadConfig)
    requires TextOpt(o)
    ensures Text(d, FieldOfOpt(o)) == t
    ensures forall f :: FieldOfOpt(o) != f ==> Agree(c, d, f)
  {
    match o
    case DestDirOpt => c.(destDir := t)
    case FileFieldNameOpt => c.(fileFieldName := t)
    case ResponseTemplateOpt => c.(responseTemplate := t)
    case NotifyUrlOpt => c.(notifyURL := t)
    case NotifyMethodOpt => c.(notifyMethod := t)
    case CapathOpt => c.(caPath := t)
  }

  /** The assignment of a size option's limit. */
  function SetLimit(c: UploadConfig, o: Opt, v: int64): (d: UploadConfig)
    requires SizeOpt(o)
    ensures Limit(d, FieldOfOpt(o)) == v
    ensures forall f :: FieldOfOpt(o) != f ==> Agree(c, d, f)
  {
    if o.MaxFilesizeOpt? || o.MaxFilesizeIntOpt? then c.(maxFilesize := v) else c.(maxFormBuffer := v)
  }

  /** Number of tokens in the lines: the measure the dispenser's cursor runs down. */
  function TokenCount(lines: seq<OptionLine>): nat
  {
    if lines == [] then 0 else 1 + |lines[0].args| + TokenCount(lines[1..])
  }

  /** Tokens left on a line, read as the next option line. */
  function Requeue(rest: seq<string>): (q: seq<OptionLine>)
    ensures TokenCount(q) == |rest|
  {
    if rest == [] then [] else [OptionLine(rest[0], rest[1..])]
  }

  lemma {:induction false} TokenCountAppend(a: seq<OptionLine>, b: seq<OptionLine>)
    ensures TokenCount(a + b) == TokenCount(a) + TokenCount(b)
    decreases |a|
  {
    if a == [] {
      assert a + b == b;
    } else {
      assert (a + b)[0] == a[0];
      assert (a + b)[1..] == a[1..] + b;
      TokenCountAppend(a[1..], b);
    }
  }

  /** The whole block: `for d.NextBlock(0) { switch d.Val() { ... } }`. */
  function Parse(c: UploadConfig, lines: seq<OptionLine>, pb: ParseBytes): ParseResult
    decreases TokenCount(lines)
  {
    if lines == [] then ParseResult(c, None)
    else
      match Dispatch(c, lines[0], pb)
      case Reject(e) => ParseResult(c, Some(e))
      case Accept(c', rest) =>
        TokenCountAppend(Requeue(rest), lines[1..]);
        Parse(c', Requeue(rest) + lines[1..], pb)
  }

  /** Some token of the line, name or argument, is an option that assigns f. */
  predicate LineMentions(l: OptionLine, f: Field)
  {
    FieldOf(l.name) == Some(f) || exists j :: 0 <= j < |l.args| && FieldOf(l.args[j]) == Some(f)
  }

  predicate Mentions(lines: seq<OptionLine>, f: Field)
  {
    exists i :: 0 <= i < |lines| && LineMentions(lines[i], f)
  }

  /** Parsing two runs of lines is parsing the first, then, if it succeeded, the second
      from where the first left the record. */
  lemma {:induction false} ParseAppend(c: UploadConfig, a: seq<OptionLine>, b: seq<OptionLine>, pb: ParseBytes)
    ensures Parse(c, a + b, pb) ==
      (var r := Parse(c, a, pb); if r.err.None? then Parse(r.cfg, b, pb) else r)
    decreases TokenCount(a)
  {
    if a == [] {
      assert a + b == b;
    } else {
      assert (a + b)[0] == a[0];
      assert (a + b)[1..] == a[1..] + b;
      match Dispatch(c, a[0], pb)
      case Reject(e) =>
      case Accept(c', rest) =>
        var q := Requeue(rest);
        TokenCountAppend(q, a[1..]);
        assert q + (a[1..] + b) == (q + a[1..]) + b;
        ParseAppend(c', q + a[1..], b, pb);
    }
  }

  /** A field keeps its prior value unless some token of the block is an option that
      assigns it; this holds on the error path too. */
  lemma {:induction false} ParseFrame(c: UploadConfig, lines: seq<OptionLine>, pb: ParseBytes, f: Field)
    requires !Mentions(lines, f)
    ensures Agree(c, Parse(c, lines, pb).cfg, f)
    decreases TokenCount(lines)
  {
    if lines != [] {
      var l := lines[0];
      assert !LineMentions(l, f);
      var s := Dispatch(c, l, pb);
      if s.Accept? {
        DispatchFrame(c, l, pb, f);
        var q := Requeue(s.rest);
        var next := q + lines[1..];
        RequeueFrame(l, s.rest, f);
        TailFrame(lines, f);
        AppendFrame(q, lines[1..], f);
        TokenCountAppend(q, lines[1..]);
        ParseFrame(s.cfg, next, pb, f);
        AgreeTransitive(c, s.cfg, Parse(s.cfg, next, pb).cfg, f);
      }
    }
  }

  /** One accepted line leaves a field it does not name alone, and leaves none of its
      tokens or all but the first. */
  lemma DispatchFrame(c: UploadConfig, l: OptionLine, pb: ParseBytes, f: Field)
    requires FieldOf(l.name) != Some(f) && Dispatch(c, l, pb).Accept?
    ensures Agree(c, Dispatch(c, l, pb).cfg, f)
    ensures l.args != [] && (Dispatch(c, l, pb).rest == [] || Dispatch(c, l, pb).rest == l.args[1..])
  {
  }

  lemma RequeueFrame(l: OptionLine, rest: seq<string>, f: Field)
    requires !LineMentions(l, f)
    requires l.args != [] && (rest == [] || rest == l.args[1..])
    ensures !Mentions(Requeue(rest), f)
  {
    if rest != [] {
      var a := l.args;
      assert rest[0] == a[1];
      forall j | 0 <= j < |rest| - 1
        ensures FieldOf(rest[1..][j]) != Some(f)
      {
        assert rest[1..][j] == a[2 + j];
      }
      assert !LineMentions(Requeue(rest)[0], f);
    }
  }

  lemma TailFrame(lines: seq<OptionLine>, f: Field)
    requires lines != [] && !Mentions(lines, f)
    ensures !Mentions(lines[1..], f)
  {
    forall i | 0 <= i < |lines| - 1
      ensures !LineMentions(lines[1..][i], f)
    {
      assert lines[1..][i] == lines[i + 1];
    }
  }

  lemma AppendFrame(a: seq<OptionLine>, b: seq<OptionLine>, f: Field)
    requires !Mentions(a, f) && !Mentions(b, f)
    ensures !Mentions(a + b, f)
  {
    forall i | 0 <= i < |a + b|
      ensures !LineMentions((a + b)[i], f)
    {
      if i < |a| {
        assert (a + b)[i] == a[i];
      } else {
        assert (a + b)[i] == b[i - |a|];
      }
    }
  }

  lemma AgreeTransitive(a: UploadConfig, b: UploadConfig, d: UploadConfig, f: Field)
    requires Agree(a, b, f) && Agree(b, d, f)
    ensures Agree(a, d, f)
  {
  }

  /** Parsing a block that starts with line l: l's switch arm, then the rest of its line
      and the following lines. */
  lemma ParseFirstLine(c: UploadConfig, l: OptionLine, rest: seq<OptionLine>, pb: ParseBytes)
    ensures var s := Dispatch(c, l, pb);
      Parse(c, [l] + rest, pb) ==
        if s.Reject? then ParseResult(c, Some(s.err)) else Parse(s.cfg, Requeue(s.rest) + rest, pb)
  {
    assert ([l] + rest)[0] == l && ([l] + rest)[1..] == rest;
  }

  /** max_filesize and max_filesize_int write the same field, and so do max_form_buffer
      and max_form_buffer_int: after a successful parse the limit is the value of the
      last size line for it. */
  lemma LaterLimitLineWins(c: UploadConfig, pre: seq<OptionLine>, l: OptionLine, post: seq<OptionLine>,
                           pb: ParseBytes, o: Opt)
    requires OptionOf(l.name) == Some(o) && SizeOpt(o)
    requires !Mentions(post, FieldOfOpt(o))
    requires Parse(c, pre + [l] + post, pb).err == None
    ensures |l.args| == 1 && LimitValue(o, l.args[0], pb).Some?
    ensures Limit(Parse(c, pre + [l] + post, pb).cfg, FieldOfOpt(o)) == LimitValue(o, l.args[0], pb).value
  {
    assert pre + [l] + post == pre + ([l] + post);
    ParseAppend(c, pre, [l] + post, pb);
    var r1 := Parse(c, pre, pb);
    assert r1.err == None;
    ParseFirstLine(r1.cfg, l, post, pb);
    var s := Dispatch(r1.cfg, l, pb);
    assert s.Accept?;
    assert Requeue(s.rest) + post == post;
    ParseFrame(s.cfg, post, pb, FieldOfOpt(o));
  }

  /** A name outside the recognised set is an error, and the record is left as it was. */
  lemma UnknownOptionRejected(c: UploadConfig, l: OptionLine, rest: seq<OptionLine>, pb: ParseBytes)
    requires OptionOf(l.name) == None
    ensures Parse(c, [l] + rest, pb) == ParseResult(c, Some(Unrecognized(l.name)))
  {
    ParseFirstLine(c, l, rest, pb);
  }

  /** A missing argument, or a second one where exactly one is allowed, is an argument
      error that leaves the record as it was. */
  lemma ArgumentCountRejected(c: UploadConfig, l: OptionLine, rest: seq<OptionLine>, pb: ParseBytes, o: Opt)
    requires OptionOf(l.name) == Some(o)
    requires l.args == [] || (ExactlyOneArg(o) && |l.args| > 1)
    ensures Parse(c, [l] + rest, pb) == ParseResult(c, Some(ArgErr(l.name)))
  {
    ParseFirstLine(c, l, rest, pb);
  }

  /** A text option with one argument stores it in its own field and changes nothing else. */
  lemma TextOptionAssigns(c: UploadConfig, name: string, arg: string, pb: ParseBytes, o: Opt)
    requires OptionOf(name) == Some(o) && TextOpt(o)
    ensures var r := Parse(c, [OptionLine(name, [arg])], pb);
      && r.err == None
      && Text(r.cfg, FieldOfOpt(o)) == arg
      && forall f :: f != FieldOfOpt(o) ==> Agree(c, r.cfg, f)
  {
    ParseFirstLine(c, OptionLine(name, [arg]), [], pb);
    assert Requeue([]) + [] == [];
  }

  /** Tokens after the one a d.Args or d.NextArg option consumes are read as the next
      option line. */
  lemma ExtraTokensAreReadAsOptions(c: UploadConfig, name: string, arg: string, more: string,
                                    others: seq<string>, rest: seq<OptionLine>, pb: ParseBytes, o: Opt)
    requires OptionOf(name) == Some(o) && !ExactlyOneArg(o)
    ensures Parse(c, [OptionLine(name, [arg, more] + others)] + rest, pb)
         == Parse(Dispatch(c, OptionLine(name, [arg]), pb).cfg, [OptionLine(more, others)] + rest, pb)
  {
    var l := OptionLine(name, [arg, more] + others);
    ParseFirstLine(c, l, rest, pb);
    assert l.args[1..] == [more] + others;
    assert ([more] + others)[1..] == others;
  }

  /** A size option with one token succeeds exactly when the token parses, stores the
      parsed value, and otherwise reports the token and leaves the record as it was. */
  lemma SizeOptionParsing(c: UploadConfig, name: string, arg: string, pb: ParseBytes, o: Opt)
    requires OptionOf(name) == Some(o) && SizeOpt(o)
    ensures var r := Parse(c, [OptionLine(name, [arg])], pb);
      && (r.err == None <==> LimitValue(o, arg, pb).Some?)
      && (r.err != None ==> r == ParseResult(c, Some(ValueErr(name, arg))))
      && (r.err == None ==> Limit(r.cfg, FieldOfOpt(o)) == LimitValue(o, arg, pb).value)
  {
    ParseFirstLine(c, OptionLine(name, [arg]), [], pb);
    assert Requeue([]) + [] == [];
  }

  /** create_uuid_dir is set only from a spelling ParseBool accepts; anything else is an error. */
  lemma CreateUuidDirParsing(c: UploadConfig, name: string, arg: string, pb: ParseBytes)
    requires OptionOf(name) == Some(CreateUuidDirOpt)
    ensures var r := Parse(c, [OptionLine(name, [arg])], pb);
      match Strconv.ParseBool(arg)
      case Some(b) => r == ParseResult(c.(createUuidDir := b), None)
      case None => r == ParseResult(c, Some(ValueErr(name, arg)))
  {
    ParseFirstLine(c, OptionLine(name, [arg]), [], pb);
    assert Requeue([]) + [] == [];
    assert !TextOpt(CreateUuidDirOpt) && !SizeOpt(CreateUuidDirOpt);
    assert Dispatch(c, OptionLine(name, [arg]), pb) == DispatchOpt(c, CreateUuidDirOpt, name, [arg], pb);
  }

  /** `insecure` turns verification skipping on whatever its token says, `false` included. */
  lemma InsecureIgnoresItsArgument(c: UploadConfig, name: string, arg: string, pb: ParseBytes)
    requires OptionOf(name) == Some(InsecureOpt)
    ensures Parse(c, [OptionLine(name, [arg])], pb) == ParseResult(c.(insecureSkipVerify := true), None)
  {
    ParseFirstLine(c, OptionLine(name, [arg]), [], pb);
    assert Requeue([]) + [] == [];
    var r := Parse(c, [OptionLine(name, [arg])], pb);
    var s := Dispatch(c, OptionLine(name, [arg]), pb);
    assert s.Accept? && s.rest == [];
    assert [OptionLine(name, [arg])] + [] == [OptionLine(name, [arg])];
    assert r == Parse(s.cfg, [], pb);
    var want := c.(insecureSkipVerify := true);
    forall f
      ensures Agree(r.cfg, want, f)
    {
      if f != InsecureSkipVerify {
        assert Agree(c, r.cfg, f);
      }
    }
    AgreeEverywhere(r.cfg, want);
  }

  /** The case labels, spelled as in the directive. */
  lemma OptionNames()
    ensures OptionOf("dest_dir") == Some(DestDirOpt)
    ensures OptionOf("file_field_name") == Some(FileFieldNameOpt)
    ensures OptionOf("max_form_buffer") == Some(MaxFormBufferOpt)
    ensures OptionOf("max_form_buffer_int") == Some(MaxFormBufferIntOpt)
    ensures OptionOf("max_filesize") == Some(MaxFilesizeOpt)
    ensures OptionOf("max_filesize_int") == Some(MaxFilesizeIntOpt)
    ensures OptionOf("response_template") == Some(ResponseTemplateOpt)
    ensures OptionOf("notify_url") == Some(NotifyUrlOpt)
    ensures OptionOf("notify_method") == Some(NotifyMethodOpt)
    ensures OptionOf("insecure") == Some(InsecureOpt)
    ensures OptionOf("capath") == Some(CapathOpt)
    ensures OptionOf("create_uuid_dir") == Some(CreateUuidDirOpt)
    ensures OptionOf("/tmp") == None
  {
  }

  /** For instance `dest_dir /srv /tmp` sets the directory, then rejects `/tmp` as an option. */
  lemma SecondDestDirArgumentRejected(c: UploadConfig, pb: ParseBytes)
    ensures Parse(c, [OptionLine("dest_dir", ["/srv", "/tmp"])], pb)
         == ParseResult(c.(destDir := "/srv"), Some(Unrecognized("/tmp")))
  {
    OptionNames();
    ExtraTokensAreReadAsOptions(c, "dest_dir", "/srv", "/tmp", [], [], pb, DestDirOpt);
    assert ["/srv", "/tmp"] == ["/srv", "/tmp"] + [];
    assert [OptionLine("dest_dir", ["/srv", "/tmp"])] == [OptionLine("dest_dir", ["/srv", "/tmp"])] + [];
    UnknownOptionRejected(Dispatch(c, OptionLine("dest_dir", ["/srv"]), pb).cfg, OptionLine("/tmp", []), [], pb);
    assert [OptionLine("/tmp", [])] + [] == [OptionLine("/tmp", [])];
    var d := Dispatch(c, OptionLine("dest_dir", ["/srv"]), pb).cfg;
    forall f
      ensures Agree(d, c.(destDir := "/srv"), f)
    {
      if f != DestDir {
        assert Agree(c, d, f);
      }
    }
    AgreeEverywhere(d, c.(destDir := "/srv"));
  }

  /** `insecure false` still turns verification skipping on, and a bare `insecure`, as the
      directive's doc comment (caddyfile.go:113) writes it, is an argument error. */
  lemma InsecureExamples(c: UploadConfig, pb: ParseBytes)
    ensures Parse(c, [OptionLine("insecure", ["false"])], pb) == ParseResult(c.(insecureSkipVerify := true), None)
    ensures Parse(c, [OptionLine("insecure", [])], pb) == ParseResult(c, Some(ArgErr("insecure")))
  {
    OptionNames();
    InsecureIgnoresItsArgument(c, "insecure", "false", pb);
    ArgumentCountRejected(c, OptionLine("insecure", []), [], pb, InsecureOpt);
    assert [OptionLine("insecure", [])] + [] == [OptionLine("insecure", [])];
  }

  /** No option writes the human size texts MaxFilesizeH and MaxFormBufferH: `max_filesize`
      and `max_form_buffer` store the parsed number, so what a block leaves in those two
      fields is what was there before it. */
  lemma ParseLeavesHumanSizes(c: UploadConfig, lines: seq<OptionLine>, pb: ParseBytes)
    ensures Parse(c, lines, pb).cfg.maxFilesizeH == c.maxFilesizeH
    ensures Parse(c, lines, pb).cfg.maxFormBufferH == c.maxFormBufferH
  {
    forall name: string
      ensures FieldOf(name) != Some(MaxFilesizeH) && FieldOf(name) != Some(MaxFormBufferH)
    {
    }
    ParseFrame(c, lines, pb, MaxFilesizeH);
    ParseFrame(c, lines, pb, MaxFormBufferH);
  }
}
