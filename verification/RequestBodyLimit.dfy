/**
 * The request-size guard: the Content-Length comparison on digit strings, and the buffering and
 * replay of the body (src/financial_intelligence/api/middleware.py). A Content-Length is 1*DIGIT
 * (section 8.6 of RFC 9110).
 */
module RequestBodyLimit {

  // ----- Decimal digit strings -----

  predicate DigitString(s: string) {
    forall i :: 0 <= i < |s| ==> '0' <= s[i] <= '9'
  }

  function Digit(c: char): nat
    requires '0' <= c <= '9'
  {
    c as int - '0' as int
  }

  /** The number a digit string denotes. */
  function Value(s: string): nat
    requires DigitString(s)
  {
    if s == "" then 0 else 10 * Value(s[..|s| - 1]) + Digit(s[|s| - 1])
  }

  function DigitChar(d: nat): char
    requires d < 10
  {
    ('0' as int + d) as char
  }

  /** The decimal text of a number. */
  function Decimal(n: nat): (s: string)
    ensures s != "" && DigitString(s)
  {
    if n < 10 then [DigitChar(n)] else Decimal(n / 10) + [DigitChar(n % 10)]
  }

  function StripZeros(s: string): (r: string)
    ensures DigitString(s) ==> DigitString(r)
  {
    if s != "" && s[0] == '0' then StripZeros(s[1..]) else s
  }

  function Normalized(s: string): (r: string)
    ensures DigitString(s) ==> DigitString(r)
  {
    if StripZeros(s) == "" then "0" else StripZeros(s)
  }

  /** Lexicographic comparison of texts. */
  predicate TextGreater(a: string, b: string) {
    if a == "" then false
    else if b == "" then true
    else if a[0] != b[0] then a[0] > b[0]
    else TextGreater(a[1..], b[1..])
  }

  /** The middleware's test: by length first, then as text. */
  predicate TooLong(contentLength: string, maxBodyBytes: nat) {
    var normalized, maximum := Normalized(contentLength), Decimal(maxBodyBytes);
    |normalized| > |maximum| || (|normalized| == |maximum| && TextGreater(normalized, maximum))
  }

  function Pow10(k: nat): nat {
    if k == 0 then 1 else 10 * Pow10(k - 1)
  }

  lemma {:induction false} ValueBound(s: string)
    requires DigitString(s)
    ensures Value(s) < Pow10(|s|)
  {
    if s != "" {
      ValueBound(s[..|s| - 1]);
    }
  }

  lemma Shift(d: nat, p: nat, v: nat)
    ensures 10 * (d * p + v) == d * (10 * p) + 10 * v
  {
  }

  lemma OneMore(x: nat, p: nat)
    ensures (x + 1) * p == x * p + p
  {
  }

  lemma {:induction false} Larger(x: nat, y: nat, p: nat)
    requires x > y
    ensures x * p >= y * p + p
  {
    OneMore(x - 1, p);
    if x - 1 > y {
      Larger(x - 1, y, p);
    }
  }

  lemma {:induction false} ValueOfHead(s: string)
    requires DigitString(s) && s != ""
    ensures Value(s) == Digit(s[0]) * Pow10(|s| - 1) + Value(s[1..])
  {
    var init, tail := s[..|s| - 1], s[1..];
    if |s| == 1 {
      assert init == "" && tail == "";
    } else {
      ValueOfHead(init);
      assert init[1..] == s[1..|s| - 1];
      assert tail[..|tail| - 1] == s[1..|s| - 1];
      assert tail[|tail| - 1] == s[|s| - 1];
      Shift(Digit(s[0]), Pow10(|s| - 2), Value(init[1..]));
      assert Pow10(|s| - 1) == 10 * Pow10(|s| - 2);
    }
  }

  lemma {:induction false} StrippingKeepsValue(s: string)
    requires DigitString(s)
    ensures Value(StripZeros(s)) == Value(s)
    ensures StripZeros(s) == "" || StripZeros(s)[0] != '0'
  {
    if s != "" && s[0] == '0' {
      ValueOfHead(s);
      StrippingKeepsValue(s[1..]);
    }
  }

  /** No leading zero, except for the text of zero itself. */
  predicate Canonical(s: string) {
    s != "" && DigitString(s) && (s[0] == '0' ==> s == "0")
  }

  lemma {:induction false} DecimalIsCanonical(n: nat)
    ensures Canonical(Decimal(n)) && Value(Decimal(n)) == n
    ensures n > 0 ==> Decimal(n)[0] != '0'
  {
    if n >= 10 {
      DecimalIsCanonical(n / 10);
      assert Decimal(n)[..|Decimal(n)| - 1] == Decimal(n / 10);
    } else {
      assert Decimal(n)[..0] == "";
    }
  }

  lemma CanonicalLowerBound(s: string)
    requires Canonical(s) && |s| > 1
    ensures Pow10(|s| - 1) <= Value(s)
  {
    ValueOfHead(s);
    Larger(Digit(s[0]), 0, Pow10(|s| - 1));
  }

  lemma {:induction false} Pow10Monotone(a: nat, b: nat)
    requires a <= b
    ensures Pow10(a) <= Pow10(b)
    decreases b - a
  {
    if a < b {
      Pow10Monotone(a, b - 1);
    }
  }

  lemma ShorterIsSmaller(a: string, b: string)
    requires DigitString(a) && Canonical(b) && |a| < |b| && a != ""
    ensures Value(a) < Value(b)
  {
    ValueBound(a);
    CanonicalLowerBound(b);
    Pow10Monotone(|a|, |b| - 1);
  }

  /** For texts of one length the text order is the numeric order. */
  lemma {:induction false} TextOrderIsNumeric(a: string, b: string)
    requires DigitString(a) && DigitString(b) && |a| == |b|
    ensures TextGreater(a, b) <==> Value(a) > Value(b)
  {
    if a != "" {
      ValueOfHead(a);
      ValueOfHead(b);
      ValueBound(a[1..]);
      ValueBound(b[1..]);
      var p, x, y := Pow10(|a| - 1), Digit(a[0]), Digit(b[0]);
      if a[0] == b[0] {
        TextOrderIsNumeric(a[1..], b[1..]);
      } else if x > y {
        Larger(x, y, p);
      } else {
        Larger(y, x, p);
      }
    }
  }

  /** The digit-string test is arithmetic: a length is refused exactly when its value exceeds the limit. */
  lemma LengthTestIsArithmetic(contentLength: string, maxBodyBytes: nat)
    requires contentLength != "" && DigitString(contentLength)
    ensures TooLong(contentLength, maxBodyBytes) <==> Value(contentLength) > maxBodyBytes
  {
    StrippingKeepsValue(contentLength);
    DecimalIsCanonical(maxBodyBytes);
    var normalized, maximum := Normalized(contentLength), Decimal(maxBodyBytes);
    assert "0"[..0] == "";
    assert Value(normalized) == Value(contentLength);
    if |normalized| > |maximum| {
      ShorterIsSmaller(maximum, normalized);
    } else if |normalized| < |maximum| {
      ShorterIsSmaller(normalized, maximum);
    } else {
      TextOrderIsNumeric(normalized, maximum);
    }
  }

  // ----- Buffering the body -----

  datatype Message = Request(body: seq<bv8>, moreBody: bool) | Disconnect | OtherMessage

  datatype Verdict = Forward(messages: seq<Message>) | TooManyChunks | TooLarge | StillWaiting

  predicate EndsBody(m: Message) {
    m.Disconnect? || (m.Request? && !m.moreBody)
  }

  function Bytes(ms: seq<Message>): nat {
    if ms == [] then 0 else Bytes(ms[..|ms| - 1]) + (if ms[|ms| - 1].Request? then |ms[|ms| - 1].body| else 0)
  }

  function Chunks(ms: seq<Message>): nat {
    if ms == [] then 0 else Chunks(ms[..|ms| - 1]) + (if ms[|ms| - 1].Request? then 1 else 0)
  }

  ghost predicate NoneEnds(ms: seq<Message>) {
    forall k :: 0 <= k < |ms| ==> !EndsBody(ms[k])
  }

  /** The message at `n` is the first that ends the body. */
  ghost predicate EndsAt(incoming: seq<Message>, n: nat) {
    n < |incoming| && EndsBody(incoming[n]) && NoneEnds(incoming[..n])
  }

  ghost predicate Within(ms: seq<Message>, maxBytes: nat, maxChunks: nat) {
    Bytes(ms) <= maxBytes && Chunks(ms) <= maxChunks
  }

  /** Up to `n` messages the body goes on within the caps; message `n` breaks one of them. */
  ghost predicate BreaksAt(incoming: seq<Message>, n: nat, maxBytes: nat, maxChunks: nat) {
    && n < |incoming|
    && NoneEnds(incoming[..n])
    && Within(incoming[..n], maxBytes, maxChunks)
    && !Within(incoming[..n + 1], maxBytes, maxChunks)
  }

  /** The loop state after `i` messages that neither end the body nor break a cap. */
  ghost predicate Collecting(incoming: seq<Message>, i: nat, total: nat, bodyChunks: nat, maxBytes: nat,
                             maxChunks: nat) {
    && i <= |incoming|
    && NoneEnds(incoming[..i])
    && total == Bytes(incoming[..i]) && bodyChunks == Chunks(incoming[..i])
    && Within(incoming[..i], maxBytes, maxChunks)
  }

  lemma OneMoreMessage(incoming: seq<Message>, i: nat)
    requires i < |incoming|
    ensures Bytes(incoming[..i + 1]) == Bytes(incoming[..i]) + (if incoming[i].Request? then |incoming[i].body| else 0)
    ensures Chunks(incoming[..i + 1]) == Chunks(incoming[..i]) + (if incoming[i].Request? then 1 else 0)
    ensures NoneEnds(incoming[..i]) && !EndsBody(incoming[i]) ==> NoneEnds(incoming[..i + 1])
    ensures incoming[..i + 1] == incoming[..i] + [incoming[i]]
  {
    assert incoming[..i + 1][..i] == incoming[..i];
  }

  /**
   * Collects the messages of a request until the body ends or breaks a cap. `incoming` is what the
   * server delivers; when it runs out the guard is still waiting.
   */
  method Collect(incoming: seq<Message>, maxBytes: nat, maxChunks: nat) returns (r: Verdict)
    ensures r.Forward? ==>
              |r.messages| > 0 && EndsAt(incoming, |r.messages| - 1)
              && r.messages == incoming[..|r.messages|] && Within(r.messages, maxBytes, maxChunks)
    ensures r.Forward? ==>
              var last := r.messages[|r.messages| - 1];
              && (last.Disconnect? || (last.Request? && !last.moreBody))
              && forall k :: 0 <= k < |r.messages| - 1 ==>
                   !r.messages[k].Disconnect? && (r.messages[k].Request? ==> r.messages[k].moreBody)
    ensures r.TooManyChunks? ==>
              exists n :: BreaksAt(incoming, n, maxBytes, maxChunks) && Chunks(incoming[..n + 1]) > maxChunks
    ensures r.TooLarge? ==>
              exists n :: BreaksAt(incoming, n, maxBytes, maxChunks) && Chunks(incoming[..n + 1]) <= maxChunks
    ensures r.StillWaiting? ==> NoneEnds(incoming) && Within(incoming, maxBytes, maxChunks)
  {
    var messages: seq<Message> := [];
    var total: nat, bodyChunks: nat := 0, 0;
    var i: nat := 0;
    while i < |incoming|
      invariant Collecting(incoming, i, total, bodyChunks, maxBytes, maxChunks)
      invariant messages == incoming[..i]
    {
      var message := incoming[i];
      OneMoreMessage(incoming, i);
      messages := messages + [message];
      if message.Disconnect? {
        return Forward(messages);
      }
      if message.Request? {
        bodyChunks := bodyChunks + 1;
        if bodyChunks > maxChunks {
          assert BreaksAt(incoming, i, maxBytes, maxChunks);
          return TooManyChunks;
        }
        total := total + |message.body|;
        if total > maxBytes {
          assert BreaksAt(incoming, i, maxBytes, maxChunks);
          return TooLarge;
        }
        if !message.moreBody {
          return Forward(messages);
        }
      }
      i := i + 1;
    }
    assert incoming[..|incoming|] == incoming;
    return StillWaiting;
  }

  lemma {:induction false} CapsAreMonotone(ms: seq<Message>, n: nat)
    requires n <= |ms|
    ensures Bytes(ms[..n]) <= Bytes(ms) && Chunks(ms[..n]) <= Chunks(ms)
  {
    if n < |ms| {
      CapsAreMonotone(ms[..|ms| - 1], n);
      assert ms[..|ms| - 1][..n] == ms[..n];
    } else {
      assert ms[..n] == ms;
    }
  }

  /** A body that ends within the caps cannot break them before its end, so exactly one verdict applies. */
  lemma EndingAndBreakingExclude(incoming: seq<Message>, e: nat, n: nat, maxBytes: nat, maxChunks: nat)
    requires EndsAt(incoming, e) && Within(incoming[..e + 1], maxBytes, maxChunks)
    ensures !BreaksAt(incoming, n, maxBytes, maxChunks)
  {
    if n < |incoming| && n <= e {
      CapsAreMonotone(incoming[..e + 1], n + 1);
      assert incoming[..e + 1][..n + 1] == incoming[..n + 1];
    } else if n < |incoming| {
      assert incoming[..n][e] == incoming[e];
    }
  }

  // ----- Replaying it -----

  /** The replacement for the server's receive: the collected messages, then disconnects. */
  class Replay {
    var messages: seq<Message>

    constructor (messages: seq<Message>)
      ensures this.messages == messages
    {
      this.messages := messages;
    }

    method Receive() returns (m: Message)
      modifies this
      ensures [m] == Served(old(messages), 1)
      ensures messages == Remaining(old(messages), 1)
    {
      if messages != [] {
        m := messages[0];
        messages := messages[1..];
      } else {
        m := Disconnect;
      }
    }
  }

  /** What the first `n` receives return. */
  function Served(ms: seq<Message>, n: nat): seq<Message> {
    if n == 0 then []
    else if ms == [] then [Disconnect] + Served([], n - 1)
    else [ms[0]] + Served(ms[1..], n - 1)
  }

  function Remaining(ms: seq<Message>, n: nat): seq<Message> {
    if n <= |ms| then ms[n..] else []
  }

  /** The body is replayed message for message, and followed by nothing but disconnects. */
  lemma {:induction false} ReplayIsFaithful(ms: seq<Message>, n: nat, k: nat)
    requires k < n
    ensures |Served(ms, n)| == n
    ensures Served(ms, n)[k] == if k < |ms| then ms[k] else Disconnect
    decreases n
  {
    var rest := if ms == [] then [] else ms[1..];
    if n > 1 {
      ReplayIsFaithful(rest, n - 1, if k > 0 then k - 1 else 0);
    }
  }

  /** Two batches of receives serve what one batch of the same size serves. */
  lemma {:induction false} ServedInTwoBatches(ms: seq<Message>, m: nat, n: nat)
    ensures Served(ms, m + n) == Served(ms, m) + Served(Remaining(ms, m), n)
    decreases m
  {
    if m > 0 {
      var rest := if ms == [] then [] else ms[1..];
      ServedInTwoBatches(rest, m - 1, n);
      assert Remaining(rest, m - 1) == Remaining(ms, m);
    } else {
      assert Remaining(ms, 0) == ms;
    }
  }
}
