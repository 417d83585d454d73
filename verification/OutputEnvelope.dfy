/** The reply that carries process output: its JSON rendering, its size, and the search for the
    largest piece of output that fits. */
module OutputEnvelope {
  import opened Common
  import opened Base64

  const MAX_OUTPUT := 65536
  const MAX_TOTAL := 9223372036854775807
  const MIN_EXIT := -2147483648
  const REASONS := {"exited", "terminated", "deadline", "owner_cleanup"}

  // ---------------------------------------------------------------- decimal numbers

  function Digits(n: nat): string {
    if n < 10 then ['0' + n as char] else Digits(n / 10) + ['0' + (n % 10) as char]
  }

  function ValueOf(text: string): int {
    if text == [] then 0 else 10 * ValueOf(text[..|text| - 1]) + (text[|text| - 1] as int - '0' as int)
  }

  /** The digits are those of the number, without a leading zero. */
  lemma {:induction false} DigitsReadBack(n: nat)
    ensures ValueOf(Digits(n)) == n && Digits(n) != []
    ensures forall i :: 0 <= i < |Digits(n)| ==> '0' <= Digits(n)[i] <= '9'
    ensures n > 0 ==> Digits(n)[0] != '0'
  {
    if n >= 10 {
      DigitsReadBack(n / 10);
      var front := Digits(n / 10);
      assert Digits(n)[..|front|] == front;
    } else {
      assert Digits(n)[..0] == [];
    }
  }

  function Decimal(n: int): string {
    if n < 0 then "-" + Digits(-n) else Digits(n)
  }

  lemma {:induction false} DigitsGrow(a: nat, b: nat)
    requires a <= b
    ensures 1 <= |Digits(a)| <= |Digits(b)|
    decreases b
  {
    if b >= 10 {
      if a >= 10 { DigitsGrow(a / 10, b / 10); } else { DigitsGrow(0, b / 10); }
    }
  }

  lemma ExitCodeLength()
    ensures |Decimal(MIN_EXIT)| == 11
  {
  }

  // ---------------------------------------------------------------- the body

  function Flag(b: bool): string {
    if b then "true" else "false"
  }

  function Quoted(s: string): string {
    "\"" + s + "\""
  }

  function Field(key: string, value: string): string {
    Quoted(key) + ":" + value
  }

  /** Keys in order, no blanks. */
  function Render(cursor: string, exitCode: string, handle: string, hasMore: string, next: string, output: string,
                  state: string, reason: string, retained: string, total: string, truncated: string): string {
    "{" + Field("cursor", cursor) + "," + Field("exit_code", exitCode) + "," + Field("handle", handle) + ","
    + Field("has_more", hasMore) + "," + Field("next_cursor", next) + "," + Field("output_base64", output) + ","
    + Field("process_state", state) + "," + Field("reason", reason) + ","
    + Field("retained_output_bytes", retained) + ","
    + Field("schema_version", "1") + "," + Field("total_output_bytes", total) + ","
    + Field("truncated", truncated) + "}"
  }

  lemma RenderedSize(cursor: string, exitCode: string, handle: string, hasMore: string, next: string, output: string,
                     state: string, reason: string, retained: string, total: string, truncated: string)
    ensures |Render(cursor, exitCode, handle, hasMore, next, output, state, reason, retained, total, truncated)|
         == |Render("", "", "", "", "", "", "", "", "", "", "")|
            + |cursor| + |exitCode| + |handle| + |hasMore| + |next| + |output| + |state| + |reason| + |retained|
            + |total| + |truncated|
  {
  }

  /** What a reply is built from: the child under its lock, and the caller's cursor. */
  datatype Shot = Shot(
    handle: string, exit: Option<int>, reason: Option<string>, cursor: nat, output: seq<Byte>, total: nat)

  function Rest(s: Shot): nat {
    if s.cursor <= |s.output| then |s.output| - s.cursor else 0
  }

  /** `_body` for the first `count` of the remaining bytes. */
  function Body(s: Shot, count: nat): string
    requires count <= Rest(s) && s.cursor <= |s.output|
  {
    Render(Decimal(s.cursor),
           if s.exit.Some? then Decimal(s.exit.value) else "null",
           Quoted(s.handle),
           Flag(count < Rest(s)),
           Decimal(s.cursor + count),
           Quoted(Encode(s.output[s.cursor..s.cursor + count])),
           Quoted(if s.exit.Some? then "EXITED" else "RUNNING"),
           if s.reason.Some? then Quoted(s.reason.value) else "null",
           Decimal(|s.output|),
           Decimal(s.total),
           Flag(s.total > |s.output|))
  }

  /** The largest fixed metadata a reply for this handle can need. */
  function Minimum(handle: string): nat {
    |Render(Decimal(MAX_OUTPUT), Decimal(MIN_EXIT), Quoted(handle), Flag(false), Decimal(MAX_OUTPUT), Quoted(""),
            Quoted("RUNNING"), Quoted("owner_cleanup"), Decimal(MAX_OUTPUT), Decimal(MAX_TOTAL), Flag(false))|
  }

  /** What an owned child can look like. */
  predicate Plausible(s: Shot) {
    && s.cursor <= |s.output| <= MAX_OUTPUT && |s.output| <= s.total <= MAX_TOTAL
    && (s.exit.Some? ==> MIN_EXIT <= s.exit.value < -MIN_EXIT)
    && (s.reason.Some? ==> s.reason.value in REASONS)
  }

  /** Everything in a reply but its keys and its data. */
  function Metadata(s: Shot, count: nat): nat
    requires count <= Rest(s) && s.cursor <= |s.output|
  {
    |Decimal(s.cursor)| + (if s.exit.Some? then |Decimal(s.exit.value)| + 6 else 4 + 7) + |s.handle|
    + (if count < Rest(s) then 4 else 5) + |Decimal(s.cursor + count)|
    + (if s.reason.Some? then |s.reason.value| + 2 else 4)
    + |Decimal(|s.output|)| + |Decimal(s.total)| + (if s.total > |s.output| then 4 else 5)
  }

  function MinimumMetadata(handle: string): nat {
    |Decimal(MAX_OUTPUT)| + 11 + 7 + |handle| + 5 + |Decimal(MAX_OUTPUT)| + 15 + |Decimal(MAX_OUTPUT)|
    + |Decimal(MAX_TOTAL)| + 5
  }

  lemma BodySize(s: Shot, count: nat)
    requires s.cursor <= |s.output| && count <= Rest(s)
    ensures |Body(s, count)| - Minimum(s.handle)
         == Metadata(s, count) - MinimumMetadata(s.handle) + (count + 2) / 3 * 4
  {
    hide Render, Decimal, Encode, Field;
    ExitCodeLength();
    var piece := s.output[s.cursor..s.cursor + count];
    Length(piece);
    RenderedSize(Decimal(s.cursor), if s.exit.Some? then Decimal(s.exit.value) else "null", Quoted(s.handle),
                 Flag(count < Rest(s)), Decimal(s.cursor + count), Quoted(Encode(piece)),
                 Quoted(if s.exit.Some? then "EXITED" else "RUNNING"),
                 if s.reason.Some? then Quoted(s.reason.value) else "null",
                 Decimal(|s.output|), Decimal(s.total), Flag(s.total > |s.output|));
    RenderedSize(Decimal(MAX_OUTPUT), Decimal(MIN_EXIT), Quoted(s.handle), Flag(false), Decimal(MAX_OUTPUT), Quoted(""),
                 Quoted("RUNNING"), Quoted("owner_cleanup"), Decimal(MAX_OUTPUT), Decimal(MAX_TOTAL), Flag(false));
  }

  // ---------------------------------------------------------------- what fits

  predicate Fits(s: Shot, count: nat, limit: nat)
    requires count <= Rest(s) && s.cursor <= |s.output|
  {
    |Body(s, count)| <= limit
  }

  lemma ExitCodesAreShort(code: int)
    requires MIN_EXIT <= code < -MIN_EXIT
    ensures 1 <= |Decimal(code)| <= 11
  {
    ExitCodeLength();
    if code < 0 { DigitsGrow(-code, -MIN_EXIT); } else { DigitsGrow(code, -MIN_EXIT); }
  }

  /** The metadata of any reply stays within the reserved minimum, by how much depending on
      whether the process has exited and whether output was cut. */
  lemma MetadataBound(s: Shot, count: nat)
    requires Plausible(s) && count <= Rest(s)
    ensures var spare := MinimumMetadata(s.handle) - Metadata(s, count);
            && spare >= 0
            && (s.exit.None? ==> spare >= 7)
            && (s.exit.Some? ==>
                  spare >= 1 + (if count < Rest(s) then 1 else 0) + (if s.total > |s.output| then 1 else 14))
  {
    hide Decimal;
    Bounds(s, count);
    ExitCodesAreShort(if s.exit.Some? then s.exit.value else 0);
    CutOutputIsLong(s);
  }

  lemma Bounds(s: Shot, count: nat)
    requires Plausible(s) && count <= Rest(s)
    ensures |Decimal(s.cursor)| <= |Decimal(MAX_OUTPUT)| && |Decimal(s.cursor + count)| <= |Decimal(MAX_OUTPUT)|
    ensures |Decimal(|s.output|)| <= |Decimal(MAX_OUTPUT)| && |Decimal(s.total)| <= |Decimal(MAX_TOTAL)|
  {
    hide Digits;
    DigitsGrow(s.cursor, MAX_OUTPUT);
    DigitsGrow(s.cursor + count, MAX_OUTPUT);
    DigitsGrow(|s.output|, MAX_OUTPUT);
    DigitsGrow(s.total, MAX_TOTAL);
  }

  /** Output that was not cut is at most 65536 bytes long, so its total is a short number. */
  lemma CutOutputIsLong(s: Shot)
    requires Plausible(s)
    ensures s.total <= |s.output| ==> |Decimal(s.total)| + 14 <= |Decimal(MAX_TOTAL)|
  {
    hide Digits;
    DigitsGrow(s.total, MAX_TOTAL);
    if s.total <= |s.output| {
      DigitsGrow(s.total, MAX_OUTPUT);
      LongNumbers();
    }
  }

  lemma LongNumbers()
    ensures |Decimal(MAX_OUTPUT)| == 5 && |Decimal(MAX_TOTAL)| == 19
  {
    assert |Digits(655)| == 3;
    assert |Digits(9223)| == 4;
    assert |Digits(922337)| == 6;
    assert |Digits(92233720)| == 8;
    assert |Digits(9223372036)| == 10;
    assert |Digits(922337203685)| == 12;
    assert |Digits(92233720368547)| == 14;
    assert |Digits(9223372036854775)| == 16;
    assert |Digits(922337203685477580)| == 18;
  }

  /** Passing the reservation makes the later refusal of an empty reply unreachable. */
  lemma EmptyReplyAlwaysFits(s: Shot, limit: nat)
    requires Plausible(s) && Minimum(s.handle) <= limit
    ensures Fits(s, 0, limit)
  {
    hide Body, Minimum, Metadata, MinimumMetadata;
    BodySize(s, 0);
    MetadataBound(s, 0);
  }

  /** One byte more never makes the reply shorter. */
  lemma OneMoreIsNotShorter(s: Shot, count: nat)
    requires s.cursor <= |s.output| && count + 1 <= Rest(s)
    ensures |Body(s, count)| <= |Body(s, count + 1)|
  {
    hide Body, Minimum, Decimal, MinimumMetadata;
    BodySize(s, count);
    BodySize(s, count + 1);
    NextIsLonger(s.cursor + count);
  }

  lemma NextIsLonger(n: nat)
    ensures |Decimal(n)| <= |Decimal(n + 1)|
  {
    DigitsGrow(n, n + 1);
  }

  lemma {:induction false} SizeGrows(s: Shot, few: nat, many: nat)
    requires s.cursor <= |s.output| && few <= many <= Rest(s)
    ensures |Body(s, few)| <= |Body(s, many)|
    decreases many
  {
    hide Body;
    if few < many {
      SizeGrows(s, few, many - 1);
      OneMoreIsNotShorter(s, many - 1);
    }
  }

  /** The binary search of `_envelope`: the largest piece of output that fits. */
  method Largest(s: Shot, limit: nat) returns (count: nat)
    requires s.cursor <= |s.output| && Fits(s, 0, limit)
    ensures count <= Rest(s) && Fits(s, count, limit)
    ensures forall more: nat :: count < more <= Rest(s) ==> !Fits(s, more, limit)
  {
    hide Body;
    var low, high := 0, Rest(s);
    while low < high
      invariant 0 <= low <= high <= Rest(s) && Fits(s, low, limit)
      invariant forall more: nat :: high < more <= Rest(s) ==> !Fits(s, more, limit)
    {
      var mid := (low + high + 1) / 2;
      if Fits(s, mid, limit) {
        low := mid;
      } else {
        forall more: nat | mid <= more <= Rest(s)
          ensures !Fits(s, more, limit)
        {
          SizeGrows(s, mid, more);
        }
        high := mid - 1;
      }
    }
    count := low;
  }

  // ---------------------------------------------------------------- progress

  /** A reply about a running process always carries output when there is any. */
  lemma RunningMakesProgress(s: Shot, limit: nat)
    requires Plausible(s) && s.exit.None? && Minimum(s.handle) <= limit && Rest(s) > 0
    ensures Fits(s, 1, limit)
  {
    hide Body, Minimum, Metadata, MinimumMetadata;
    BodySize(s, 1);
    MetadataBound(s, 1);
  }

  ghost predicate AlwaysProgress(handle: string, limit: nat) {
    forall s: Shot :: s.handle == handle && Plausible(s) && Rest(s) > 0 ==> Fits(s, 1, limit)
  }

  /** An exited process with the longest metadata and one byte left to read. */
  function Stuck(handle: string): Shot {
    Shot(handle, Some(MIN_EXIT), Some("owner_cleanup"), MAX_OUTPUT - 1, seq(MAX_OUTPUT, _ => 0), MAX_TOTAL)
  }

  lemma StuckNeedsTwo(handle: string)
    ensures Plausible(Stuck(handle)) && Rest(Stuck(handle)) == 1
    ensures |Body(Stuck(handle), 1)| == Minimum(handle) + 2
  {
    hide Body, Minimum, Decimal, Digits;
    BodySize(Stuck(handle), 1);
    ExitCodeLength();
    FiveDigits();
  }

  lemma FiveDigits()
    ensures |Decimal(MAX_OUTPUT - 1)| == |Decimal(MAX_OUTPUT)|
  {
    assert |Digits(655)| == 3;
  }

  /** Whether every reply makes progress is decided by two bytes beyond the reserved minimum. */
  lemma ProgressExactly(handle: string, limit: nat)
    requires Minimum(handle) <= limit
    ensures AlwaysProgress(handle, limit) <==> Minimum(handle) + 2 <= limit
  {
    hide Body, Minimum, Metadata, MinimumMetadata;
    StuckNeedsTwo(handle);
    if Minimum(handle) + 2 <= limit {
      forall s: Shot | s.handle == handle && Plausible(s) && Rest(s) > 0
        ensures Fits(s, 1, limit)
      {
        BodySize(s, 1);
        MetadataBound(s, 1);
      }
    } else {
      assert !Fits(Stuck(handle), 1, limit);
    }
  }
}
