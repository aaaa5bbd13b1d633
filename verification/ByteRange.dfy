// Serving a file or one byte range of it (nvr/nvr_service.py, send_file).

module ByteRange {
  import opened ByteFiles
  import opened Options

  const BLOCK := 64 * 1024
  const LONGEST_HEADER := 128

  // ---------- Decimal numbers ----------

  predicate IsDigit(c: char) { '0' <= c <= '9' }

  predicate AllDigits(s: string) { forall i :: 0 <= i < |s| ==> IsDigit(s[i]) }

  function Number(s: string): nat
    requires AllDigits(s)
  {
    if s == [] then 0 else Number(s[..|s| - 1]) * 10 + (s[|s| - 1] as int - '0' as int)
  }

  function Decimal(n: nat): (s: string)
    ensures AllDigits(s) && s != []
  {
    var last := [('0' as int + n % 10) as char];
    if n < 10 then last else Decimal(n / 10) + last
  }

  lemma {:induction false} NumberOfDecimal(n: nat)
    ensures Number(Decimal(n)) == n
  {
    var s := Decimal(n);
    if n < 10 {
      assert s[..|s| - 1] == [];
    } else {
      NumberOfDecimal(n / 10);
      assert s[..|s| - 1] == Decimal(n / 10);
    }
  }

  // ---------- The Range header ----------

  // One byte range: section 14.1.2 of RFC 9110.
  datatype Spec = From(first: nat) | FromTo(first: nat, last: nat) | Suffix(length: nat)

  const PREFIX := "bytes="

  function LeadingDigits(s: string): (n: nat)
    ensures n <= |s| && AllDigits(s[..n]) && (n < |s| ==> !IsDigit(s[n]))
  {
    if s == [] || !IsDigit(s[0]) then 0
    else
      var n := LeadingDigits(s[1..]);
      assert s[..n + 1] == [s[0]] + s[1..][..n];
      n + 1
  }

  // The whole header must be a unit, digits, a hyphen and digits, and have
  // digits on one side at least.
  function Parse(header: string): Option<Spec>
  {
    if |header| > LONGEST_HEADER || |header| < |PREFIX| || header[..|PREFIX|] != PREFIX then None
    else
      var text := header[|PREFIX|..];
      var n := LeadingDigits(text);
      if n == |text| || text[n] != '-' || !AllDigits(text[n + 1..]) then None
      else
        var a, b := text[..n], text[n + 1..];
        if a == [] && b == [] then None
        else if a == [] then Some(Suffix(Number(b)))
        else if b == [] then Some(From(Number(a)))
        else Some(FromTo(Number(a), Number(b)))
  }

  function Written(spec: Spec): string
  {
    match spec
    case From(a) => PREFIX + Decimal(a) + "-"
    case FromTo(a, b) => PREFIX + Decimal(a) + "-" + Decimal(b)
    case Suffix(n) => PREFIX + "-" + Decimal(n)
  }

  lemma {:induction false} LeadingDigitsOf(a: string, rest: string)
    requires AllDigits(a) && (rest == [] || !IsDigit(rest[0]))
    ensures LeadingDigits(a + rest) == |a|
  {
    if a == [] {
      assert a + rest == rest;
    } else {
      assert (a + rest)[1..] == a[1..] + rest;
      LeadingDigitsOf(a[1..], rest);
    }
  }

  lemma ParseParts(a: string, b: string)
    requires AllDigits(a) && AllDigits(b) && |PREFIX + a + "-" + b| <= LONGEST_HEADER
    ensures Parse(PREFIX + a + "-" + b) ==
            if a == [] && b == [] then None
            else if a == [] then Some(Suffix(Number(b)))
            else if b == [] then Some(From(Number(a)))
            else Some(FromTo(Number(a), Number(b)))
  {
    hide Number; hide LeadingDigits;
    var header := PREFIX + a + "-" + b;
    HeaderText(a, b);
    TextParts(a, b);
  }

  lemma HeaderText(a: string, b: string)
    ensures var header := PREFIX + a + "-" + b; var text := a + ("-" + b);
      |header| >= |PREFIX| && header[..|PREFIX|] == PREFIX && header[|PREFIX|..] == text
  {
    assert PREFIX + a + "-" + b == PREFIX + (a + ("-" + b));
  }

  lemma TextParts(a: string, b: string)
    requires AllDigits(a)
    ensures var text := a + ("-" + b);
      LeadingDigits(text) == |a| < |text| && text[|a|] == '-' && text[..|a|] == a && text[|a| + 1..] == b
  {
    LeadingDigitsOf(a, "-" + b);
  }

  // Every range can be asked for, unless its header would be too long.
  lemma ParseWritten(spec: Spec)
    requires |Written(spec)| <= LONGEST_HEADER
    ensures Parse(Written(spec)) == Some(spec)
  {
    hide Parse;
    hide Number;
    hide Decimal;
    match spec
    case From(x) =>
      ParseParts(Decimal(x), "");
      assert PREFIX + Decimal(x) + "-" + "" == PREFIX + Decimal(x) + "-";
      NumberOfDecimal(x);
    case FromTo(x, y) =>
      ParseParts(Decimal(x), Decimal(y));
      NumberOfDecimal(x);
      NumberOfDecimal(y);
    case Suffix(n) =>
      ParseParts("", Decimal(n));
      assert PREFIX + "" + "-" + Decimal(n) == PREFIX + "-" + Decimal(n);
      NumberOfDecimal(n);
  }

  // Exactly these headers ask for a range: the unit, digits, a hyphen, digits,
  // with digits on one side at least, and 128 characters at most.
  lemma ParseIff(header: string)
    ensures Parse(header).Some? <==>
      |header| <= 128
      && exists a, b :: AllDigits(a) && AllDigits(b) && (a != [] || b != []) && header == "bytes=" + a + "-" + b
  {
    if Parse(header).Some? {
      var text := header[|PREFIX|..];
      var n := LeadingDigits(text);
      var a, b := text[..n], text[n + 1..];
      assert text == a + "-" + b;
      assert header == "bytes=" + a + "-" + b;
    }
    if |header| <= 128
       && exists a, b :: AllDigits(a) && AllDigits(b) && (a != [] || b != []) && header == "bytes=" + a + "-" + b {
      var a, b :| AllDigits(a) && AllDigits(b) && (a != [] || b != []) && header == "bytes=" + a + "-" + b;
      ParseParts(a, b);
    }
  }

  // Digits count as usual.
  lemma DigitsCount(s: string, d: char)
    requires AllDigits(s) && IsDigit(d)
    ensures Number(s + [d]) == 10 * Number(s) + (d as int - 48) && Number("") == 0
  {
    assert (s + [d])[..|s|] == s;
  }

  // ---------- The answer ----------

  // 304, 416, 200 with the length, 206 with the first and last position.
  datatype Answer = NotModified | Unsatisfiable | Whole(length: nat) | Partial(first: nat, last: nat)

  function Decide(size: nat, header: string): Answer
  {
    if header == "" then Whole(size)
    else
      match Parse(header)
      case None => Unsatisfiable
      case Some(spec) =>
        var first: int := match spec case Suffix(n) => (if size > n then size - n else 0) case _ => spec.first;
        var last: int := match spec case FromTo(_, b) => (if b < size - 1 then b else size - 1) case _ => size - 1;
        if spec == Suffix(0) || first > last || first >= size then Unsatisfiable else Partial(first, last)
  }

  // The positions of a file of this size that a range asks for.
  predicate Selects(spec: Spec, size: nat, i: nat)
  {
    && i < size
    && match spec
       case From(a) => a <= i
       case FromTo(a, b) => a <= i <= b
       case Suffix(n) => size - n <= i
  }

  // The answer is partial exactly when some position is asked for, and then it
  // is the positions asked for.
  lemma DecideIsSelection(size: nat, header: string)
    requires Parse(header).Some?
    ensures var spec := Parse(header).value;
      && (Decide(size, header).Partial? <==> exists i: nat :: Selects(spec, size, i))
      && (Decide(size, header).Partial? ==> forall i: nat ::
            Selects(spec, size, i) <==> Decide(size, header).first <= i <= Decide(size, header).last)
      && (!Decide(size, header).Partial? ==> Decide(size, header) == Unsatisfiable)
  {
    var spec, answer := Parse(header).value, Decide(size, header);
    if answer.Partial? {
      assert Selects(spec, size, answer.first);
    }
  }

  // Sections 14.1.2 and 14.2 of RFC 9110: a valid range is satisfiable if its
  // first position is in the file, or it is a suffix that is not empty.
  predicate Valid(spec: Spec) { spec.FromTo? ==> spec.first <= spec.last }

  predicate Satisfiable(spec: Spec, size: nat)
  {
    if spec.Suffix? then spec.length > 0 else spec.first < size
  }

  // For valid ranges the answer differs from the standard's only on the empty
  // file, of which a suffix is satisfiable but has no positions.
  lemma DecideMeetsStandard(size: nat, header: string)
    requires Parse(header).Some? && Valid(Parse(header).value)
    ensures (Decide(size, header).Partial? <==> Satisfiable(Parse(header).value, size)) <==>
            !(size == 0 && Parse(header).value.Suffix? && Parse(header).value.length > 0)
  {
  }

  // A header in any other form is refused, also one with a unit the server does
  // not know, which section 14.2 wants ignored: only no header gives the file.
  lemma WholeOnlyWithoutHeader(size: nat, header: string)
    ensures Decide(size, header).Whole? <==> header == ""
    ensures Decide(size, "items=0-5") == Unsatisfiable
  {
    assert "items=0-5"[0] != PREFIX[0];
    assert "items=0-5"[..|PREFIX|][0] == 'i';
  }

  // ---------- The body ----------

  function Body(content: Bytes, answer: Answer): Bytes
    requires answer.Whole? ==> answer.length == |content|
    requires answer.Partial? ==> answer.first <= answer.last < |content|
  {
    match answer
    case Whole(_) => content
    case Partial(first, last) => content[first..last + 1]
    case _ => []
  }

  // Cuts of a file, in order.
  ghost predicate Cuts(cuts: seq<nat>, size: nat)
  {
    |cuts| > 0 && cuts[0] == 0 && cuts[|cuts| - 1] == size
    && forall i :: 0 < i < |cuts| ==> cuts[i - 1] < cuts[i] <= size
  }

  // The bodies of the answers to requests for the pieces between the cuts.
  ghost function Pieces(content: Bytes, cuts: seq<nat>, n: nat): Bytes
    requires Cuts(cuts, |content|) && n < |cuts| && forall i :: 0 < i < |cuts| ==> Asked(cuts, i)
  {
    if n == 0 then []
    else
      PieceIsPartial(|content|, cuts, n);
      Pieces(content, cuts, n - 1) + Body(content, Decide(|content|, Written(FromTo(cuts[n - 1], cuts[n] - 1))))
  }

  ghost predicate Asked(cuts: seq<nat>, i: nat)
    requires 0 < i < |cuts|
  {
    cuts[i] > 0 && |Written(FromTo(cuts[i - 1], cuts[i] - 1))| <= LONGEST_HEADER
  }

  lemma PieceIsPartial(size: nat, cuts: seq<nat>, n: nat)
    requires Cuts(cuts, size) && 0 < n < |cuts| && Asked(cuts, n)
    ensures Decide(size, Written(FromTo(cuts[n - 1], cuts[n] - 1))) == Partial(cuts[n - 1], cuts[n] - 1)
  {
    ParseWritten(FromTo(cuts[n - 1], cuts[n] - 1));
  }

  // Consecutive ranges, however the file is cut, put the file together again.
  lemma {:induction false} PiecesMakeTheFile(content: Bytes, cuts: seq<nat>, n: nat)
    requires Cuts(cuts, |content|) && n < |cuts| && forall i :: 0 < i < |cuts| ==> Asked(cuts, i)
    ensures Pieces(content, cuts, n) == content[..cuts[n]]
    ensures n == |cuts| - 1 ==> Pieces(content, cuts, n) == content
  {
    hide Decide;
    hide Written;
    hide Body;
    hide Asked;
    if n > 0 {
      PiecesMakeTheFile(content, cuts, n - 1);
      PieceBody(content, cuts, n);
      JoinSlices(content, cuts[n - 1], cuts[n]);
    }
    assert content[..|content|] == content;
  }

  lemma PieceBody(content: Bytes, cuts: seq<nat>, n: nat)
    requires Cuts(cuts, |content|) && 0 < n < |cuts| && Asked(cuts, n)
    ensures var answer := Decide(|content|, Written(FromTo(cuts[n - 1], cuts[n] - 1)));
      answer == Partial(cuts[n - 1], cuts[n] - 1) && Body(content, answer) == content[cuts[n - 1]..cuts[n]]
  {
    hide Decide;
    hide Written;
    PieceIsPartial(|content|, cuts, n);
  }

  lemma JoinSlices(b: Bytes, i: nat, j: nat)
    requires i <= j <= |b|
    ensures b[..i] + b[i..j] == b[..j]
  {
  }

  // What is sent for each kind of range: from a position on, from one to
  // another, and as many bytes from the end; as far as there are any.
  lemma WhatIsSent(content: Bytes, header: string)
    ensures header == "" ==> Decide(|content|, header) == Whole(|content|)
    ensures header != "" && Parse(header).None? ==> Decide(|content|, header) == Unsatisfiable
    ensures header != "" && Parse(header).Some? ==>
      var spec, size := Parse(header).value, |content|;
      var answer := Decide(size, header);
      var from := match spec case Suffix(n) => (if n < size then size - n else 0) case _ => spec.first;
      var to := match spec case FromTo(_, b) => (if b + 1 < size then b + 1 else size) case _ => size;
      if from < to
      then answer.Partial? && answer.first <= answer.last < size && Body(content, answer) == content[from..to]
      else answer == Unsatisfiable
  {
  }

  // ---------- The loop ----------

  // Content-Length and Content-Range of a response.
  datatype Headers = Headers(status: nat, length: nat, contentRange: string)

  function ContentRange(answer: Answer, size: nat): string
  {
    match answer
    case Partial(first, last) => "bytes " + Decimal(first) + "-" + Decimal(last) + "/" + Decimal(size)
    case Unsatisfiable => "bytes */" + Decimal(size)
    case _ => ""
  }

  // The first position and the number of bytes that an answer announces.
  function First(answer: Answer): nat { if answer.Partial? then answer.first else 0 }

  function Count(answer: Answer): nat
  {
    match answer
    case Whole(length) => length
    case Partial(first, last) => if first <= last then last - first + 1 else 0
    case _ => 0
  }

  function Status(answer: Answer): nat
  {
    match answer case NotModified => 304 case Unsatisfiable => 416 case Whole(_) => 200 case Partial(_, _) => 206
  }

  // The head of each response.
  lemma ResponseMeans(answer: Answer, size: nat)
    ensures var h := Headers(Status(answer), Count(answer), ContentRange(answer, size));
      match answer
      case NotModified => h == Headers(304, 0, "")
      case Unsatisfiable => h == Headers(416, 0, "bytes */" + Decimal(size))
      case Whole(length) => h == Headers(200, length, "")
      case Partial(first, last) =>
        first <= last ==>
          h == Headers(206, last + 1 - first,
                       "bytes " + Decimal(first) + "-" + Decimal(last) + "/" + Decimal(size))
  {
  }

  // `size` is the file's size when it was opened; the file may be shorter by
  // now. `cached` says that the client has this file, `stale` that its
  // If-Range condition failed. What is sent is what was announced, as far as
  // the file goes, and a file that ends early is an error.
  method SendFile(source: Source, size: nat, get: bool, range: string, cached: bool, stale: bool, sink: Sink)
    returns (answer: Answer, headers: Headers, complete: bool)
    modifies source, sink
    ensures answer == if cached then NotModified else Decide(size, if get && !stale then range else "")
    ensures headers == Headers(Status(answer), Count(answer), ContentRange(answer, size))
    ensures sink.data == old(sink.data) + if get then Take(Drop(source.data, First(answer)), Count(answer)) else []
    ensures complete <==> !get || Count(answer) == 0 || First(answer) + Count(answer) <= |source.data|
  {
    hide Decide;
    hide ContentRange;
    var header := if get && !stale then range else "";
    answer := if cached then NotModified else Decide(size, header);
    headers := Headers(Status(answer), Count(answer), ContentRange(answer, size));
    complete := true;
    if cached || answer.Unsatisfiable? || !get {
      return;
    }
    source.Seek(First(answer));
    complete := SendBlocks(source, Count(answer), sink);
  }

  // The loop over the blocks.
  method SendBlocks(source: Source, length: nat, sink: Sink) returns (complete: bool)
    modifies source, sink
    ensures sink.data == old(sink.data) + Take(old(source.Rest()), length)
    ensures complete <==> length <= |old(source.Rest())|
  {
    hide Take;
    hide Drop;
    ghost var wanted := source.Rest();
    var remaining := length;
    complete := true;
    TakeNothing(wanted);
    while remaining > 0 && complete
      invariant 0 <= remaining <= length && length - remaining <= |wanted|
      invariant complete ==> source.Rest() == Drop(wanted, length - remaining)
      invariant complete ==> sink.data == old(sink.data) + Take(wanted, length - remaining)
      invariant !complete ==> sink.data == old(sink.data) + Take(wanted, length) && |wanted| < length
      decreases remaining, complete
    {
      var n := if remaining < BLOCK then remaining else BLOCK;
      var block := source.Read(n);
      TakeMore(wanted, length - remaining, block, n);
      if block == [] {
        complete := false;
        TakeAll(wanted, length, remaining, n);
      } else {
        assert old(sink.data) + Take(wanted, length - remaining) + block
            == old(sink.data) + (Take(wanted, length - remaining) + block);
        sink.Write(block);
        remaining := remaining - |block|;
      }
    }
  }

  lemma TakeNothing(b: Bytes)
    ensures Take(b, 0) == [] && Drop(b, 0) == b
  {
  }

  // A block that is read is the next part of what is left.
  lemma TakeMore(b: Bytes, done: nat, block: Bytes, n: nat)
    requires done <= |b| && block == Take(Drop(b, done), n)
    ensures |block| <= n && done + |block| <= |b|
    ensures Take(b, done) + block == Take(b, done + |block|)
    ensures Drop(Drop(b, done), n) == Drop(b, done + |block|)
  {
  }

  // An empty block says that nothing is left.
  lemma TakeAll(b: Bytes, length: nat, remaining: nat, n: nat)
    requires 0 < n <= remaining <= length && length - remaining <= |b|
    requires Take(Drop(b, length - remaining), n) == []
    ensures |b| < length && Take(b, length) == Take(b, length - remaining)
  {
    assert b[..|b|] == b;
  }

  // What an answer to a file of its announced size sends is the body.
  lemma SentIsBody(content: Bytes, header: string)
    ensures var answer := Decide(|content|, header);
      && (answer.Partial? ==> answer.first <= answer.last < |content|)
      && (answer.Whole? ==> answer.length == |content|)
      && Take(Drop(content, First(answer)), Count(answer)) == Body(content, answer)
      && Count(answer) == |Body(content, answer)|
  {
    var answer := Decide(|content|, header);
    if answer.Partial? {
      assert content[answer.first..][..Count(answer)] == content[answer.first..answer.last + 1];
    }
  }
}
