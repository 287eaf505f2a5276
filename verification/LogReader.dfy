/** Reading the data blocks back out of a controller log. */
module LogReader {
  import opened Basics

  const BEGIN_DELIM := "__Data__"
  const END_DELIM := "__EndData__"

  // ----- lines

  /** The stripped lines, each ended by a newline. */
  function Text(lines: seq<string>): string {
    if lines == [] then "" else Text(lines[..|lines| - 1]) + Strip(lines[|lines| - 1]) + "\n"
  }

  // ----- the reader

  /** The reader's variables, and the texts handed to the YAML loader so far. */
  datatype State = State(record: bool, buf: string, texts: seq<string>)

  const START := State(false, "", [])

  function Step(s: State, line: string): State {
    var l := Strip(line);
    if s.record && l == END_DELIM then s.(record := false, texts := s.texts + [s.buf])
    else if !s.record && l == BEGIN_DELIM then s.(record := true, buf := "")
    else if s.record then s.(buf := s.buf + l + "\n")
    else s
  }

  function Run(s: State, lines: seq<string>): State {
    if lines == [] then s else Step(Run(s, lines[..|lines| - 1]), lines[|lines| - 1])
  }

  lemma {:induction false} RunAppend(s: State, a: seq<string>, b: seq<string>)
    ensures Run(s, a + b) == Run(Run(s, a), b)
  {
    if b == [] {
      assert a + b == a;
    } else {
      assert (a + b)[..|a + b| - 1] == a + b[..|b| - 1];
      RunAppend(s, a, b[..|b| - 1]);
    }
  }

  /** The documents by transaction name, a later one replacing an earlier one; None when the loader
      or the name lookup fails on some text. */
  function Collect<Y>(texts: seq<string>, load: string -> Option<(string, Y)>): Option<map<string, Y>> {
    if texts == [] then Some(map[])
    else
      match Collect(texts[..|texts| - 1], load)
      case None => None
      case Some(data) =>
        match load(texts[|texts| - 1])
        case None => None
        case Some((name, y)) => Some(data[name := y])
  }

  /** The reader's loop; `load` stands for loading YAML and taking its txn_name. */
  method Extract<Y>(lines: seq<string>, load: string -> Option<(string, Y)>) returns (r: Option<map<string, Y>>)
    ensures r == Collect(Run(START, lines).texts, load)
  {
    var record, buf, data := false, "", map[];
    ghost var texts := [];
    for i := 0 to |lines|
      invariant Run(START, lines[..i]) == State(record, buf, texts)
      invariant Collect(texts, load) == Some(data)
    {
      assert lines[..i + 1][..i] == lines[..i];
      var l := Strip(lines[i]);
      if record && l == END_DELIM {
        record := false;
        var doc := load(buf);
        assert (texts + [buf])[..|texts|] == texts;
        texts := texts + [buf];
        if doc.None? {
          ReadsOn(lines, i + 1);
          CollectFails(Run(START, lines).texts, load, |texts|);
          return None;
        }
        data := data[doc.value.0 := doc.value.1];
      } else if !record && l == BEGIN_DELIM {
        record, buf := true, "";
      } else if record {
        buf := buf + l + "\n";
      }
    }
    assert lines[..|lines|] == lines;
    return Some(data);
  }

  lemma {:induction false} ReadsOn(lines: seq<string>, n: nat)
    requires n <= |lines|
    ensures Run(START, lines[..n]).texts <= Run(START, lines).texts
  {
    if n == |lines| {
      assert lines[..n] == lines;
    } else {
      assert lines[..|lines| - 1][..n] == lines[..n];
      ReadsOn(lines[..|lines| - 1], n);
    }
  }

  lemma {:induction false} CollectFails<Y>(texts: seq<string>, load: string -> Option<(string, Y)>, n: nat)
    requires n <= |texts| && Collect(texts[..n], load).None?
    ensures Collect(texts, load).None?
  {
    if n == |texts| {
      assert texts[..n] == texts;
    } else {
      assert texts[..|texts| - 1][..n] == texts[..n];
      CollectFails(texts[..|texts| - 1], load, n);
    }
  }

  /** The last block of each name is kept. */
  lemma {:induction false} LastBlockKept<Y>(texts: seq<string>, load: string -> Option<(string, Y)>, name: string)
    requires forall i :: 0 <= i < |texts| ==> load(texts[i]).Some?
    ensures Collect(texts, load).Some?
    ensures name in Collect(texts, load).value <==> exists i :: 0 <= i < |texts| && load(texts[i]).value.0 == name
    ensures forall i :: 0 <= i < |texts| && load(texts[i]).value.0 == name
                        && (forall k :: i < k < |texts| ==> load(texts[k]).value.0 != name)
                        ==> Collect(texts, load).value[name] == load(texts[i]).value.1
  {
    if texts != [] {
      var rest := texts[..|texts| - 1];
      LastBlockKept(rest, load, name);
      assert texts == rest + [texts[|texts| - 1]];
    }
  }

  // ----- the writer

  /** What goes into a log: other lines, and data blocks, which start after the logger's prefix and
      end with the newline of the dump, the end marker and an empty line. */
  datatype Entry = Noise(line: string) | Block(prefix: string, body: seq<string>)

  function Lines(e: Entry): seq<string> {
    match e
    case Noise(line) => [line]
    case Block(prefix, body) => [prefix, BEGIN_DELIM] + (body + [""]) + [END_DELIM, ""]
  }

  function Log(entries: seq<Entry>): seq<string> {
    if entries == [] then [] else Log(entries[..|entries| - 1]) + Lines(entries[|entries| - 1])
  }

  function Texts(entries: seq<Entry>): seq<string> {
    if entries == [] then []
    else
      var e := entries[|entries| - 1];
      Texts(entries[..|entries| - 1]) + if e.Block? then [Text(e.body + [""])] else []
  }

  /** No line outside a block reads as the begin marker and no line inside one as the end marker. */
  ghost predicate Clean(e: Entry) {
    match e
    case Noise(line) => Strip(line) != BEGIN_DELIM
    case Block(prefix, body) =>
      Strip(prefix) != BEGIN_DELIM && forall i :: 0 <= i < |body| ==> Strip(body[i]) != END_DELIM
  }

  lemma {:induction false} BodyIsRecorded(s: State, body: seq<string>)
    requires s.record && forall i :: 0 <= i < |body| ==> Strip(body[i]) != END_DELIM
    ensures Run(s, body) == s.(buf := s.buf + Text(body))
  {
    if body == [] {
      assert s.buf + "" == s.buf;
    } else {
      var rest, l := body[..|body| - 1], Strip(body[|body| - 1]);
      BodyIsRecorded(s, rest);
      assert s.buf + Text(rest) + l + "\n" == s.buf + (Text(rest) + l + "\n");
    }
  }

  lemma DelimitersAreBare()
    ensures Strip(BEGIN_DELIM) == BEGIN_DELIM && Strip(END_DELIM) == END_DELIM && Strip("") == ""
  {
  }

  lemma BlockIsRead(s: State, prefix: string, body: seq<string>)
    requires !s.record && Clean(Block(prefix, body))
    ensures Run(s, Lines(Block(prefix, body))) ==
            State(false, Text(body + [""]), s.texts + [Text(body + [""])])
  {
    var inner := body + [""];
    DelimitersAreBare();
    var started := State(true, "", s.texts);
    RunTwo(s, prefix, BEGIN_DELIM);
    assert forall i :: 0 <= i < |inner| ==> Strip(inner[i]) != END_DELIM;
    BodyIsRecorded(started, inner);
    var full := started.(buf := Text(inner));
    assert "" + Text(inner) == Text(inner);
    RunTwo(full, END_DELIM, "");
    RunAppend(s, [prefix, BEGIN_DELIM], inner);
    RunAppend(s, [prefix, BEGIN_DELIM] + inner, [END_DELIM, ""]);
  }

  lemma RunOne(s: State, a: string)
    ensures Run(s, [a]) == Step(s, a)
  {
    assert [a][..0] == [];
    assert Run(s, []) == s;
  }

  lemma RunTwo(s: State, a: string, b: string)
    ensures Run(s, [a, b]) == Step(Step(s, a), b)
  {
    RunOne(s, a);
    assert [a, b][..1] == [a];
  }

  lemma {:induction false} LinesRoundTrip(entries: seq<Entry>)
    requires forall i :: 0 <= i < |entries| ==> Clean(entries[i])
    ensures var s := Run(START, Log(entries)); !s.record && s.texts == Texts(entries)
  {
    if entries != [] {
      var rest, e := entries[..|entries| - 1], entries[|entries| - 1];
      LinesRoundTrip(rest);
      RunAppend(START, Log(rest), Lines(e));
      var s := Run(START, Log(rest));
      match e
      case Noise(line) =>
        RunOne(s, line);
      case Block(prefix, body) =>
        BlockIsRead(s, prefix, body);
    }
  }

  // ----- the lines of a file

  /** The lines as a file yields them, each with its newline. */
  function WithNewlines(lines: seq<string>): (r: seq<string>)
    ensures |r| == |lines| && forall i :: 0 <= i < |r| ==> r[i] == lines[i] + "\n"
  {
    seq(|lines|, i requires 0 <= i < |lines| => lines[i] + "\n")
  }

  lemma NewlineIsStripped(line: string)
    ensures Strip(line + "\n") == Strip(line)
  {
    hide Strip;
    var a, b := StripSplits(line);
    assert line + "\n" == a + Strip(line) + (b + "\n");
    assert IsSpace('\n');
    StripOf(a, Strip(line), b + "\n");
  }

  lemma {:induction false} SameRun(s: State, lines: seq<string>)
    ensures Run(s, WithNewlines(lines)) == Run(s, lines)
  {
    hide Strip;
    if lines != [] {
      var n := |lines| - 1;
      SameRun(s, lines[..n]);
      assert WithNewlines(lines)[..n] == WithNewlines(lines[..n]);
      NewlineIsStripped(lines[n]);
    }
  }

  /** Reading a log file back gives exactly the texts of its blocks, in order. */
  lemma LogRoundTrip(entries: seq<Entry>)
    requires forall i :: 0 <= i < |entries| ==> Clean(entries[i])
    ensures var s := Run(START, WithNewlines(Log(entries))); !s.record && s.texts == Texts(entries)
  {
    hide *;
    LinesRoundTrip(entries);
    SameRun(START, Log(entries));
  }

  /** The text of a block whose lines have nothing to strip is the lines themselves, each with a newline. */
  lemma {:induction false} BareText(lines: seq<string>)
    requires forall i :: 0 <= i < |lines| ==> Bare(lines[i])
    ensures Text(lines) == Flatten(WithNewlines(lines))
  {
    hide Strip, Bare;
    if lines != [] {
      var n := |lines| - 1;
      BareText(lines[..n]);
      assert WithNewlines(lines)[..n] == WithNewlines(lines[..n]);
      StripKeepsBare(lines[n]);
      assert Text(lines[..n]) + lines[n] + "\n" == Text(lines[..n]) + (lines[n] + "\n");
    }
  }
}
