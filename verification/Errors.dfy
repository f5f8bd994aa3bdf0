/** The client's error type and its textual form (crates/grpc-quic-client/src/error.rs). */
module Errors {

  datatype ClientError =
    | Transport(message: string)
    | RetriesExhausted(attempts: nat, lastError: string)
    | Closed
    | StreamIo(message: string)
    | InvalidResponse(message: string)
    | RequestBuild(message: string)

  function Decimal(n: nat): string {
    if n < 10 then [DigitChar(n)] else Decimal(n / 10) + [DigitChar(n % 10)]
  }

  function DigitChar(d: nat): char
    requires d < 10
  {
    "0123456789"[d]
  }

  function Display(e: ClientError): string {
    match e
    case Transport(m) => "transport error: " + m
    case RetriesExhausted(n, last) => "retries exhausted after " + Decimal(n) + " attempts: " + last
    case Closed => "channel closed"
    case StreamIo(m) => "stream I/O error: " + m
    case InvalidResponse(m) => "invalid response: " + m
    case RequestBuild(m) => "request build error: " + m
  }
  // ---------------------------------------------------------------- decimal numerals

  predicate IsDigit(c: char) {
    '0' <= c <= '9'
  }

  function DigitsValue(s: string): nat
    requires forall i :: 0 <= i < |s| ==> IsDigit(s[i])
  {
    if s == [] then 0 else 10 * DigitsValue(s[..|s| - 1]) + DigitOf(s[|s| - 1])
  }

  function DigitOf(c: char): nat
    requires IsDigit(c)
  {
    c as nat - '0' as nat
  }

  predicate AllDigits(s: string) {
    s != [] && forall i :: 0 <= i < |s| ==> IsDigit(s[i])
  }

  lemma {:induction false} DecimalParses(n: nat)
    ensures AllDigits(Decimal(n)) && DigitsValue(Decimal(n)) == n
  {
    var s := Decimal(n);
    var m := |s| - 1;
    if n < 10 {
      assert s[..m] == [];
    } else {
      DecimalParses(n / 10);
      assert s[..m] == Decimal(n / 10);
    }
  }

  // ---------------------------------------------------------------- what the text tells

  lemma Behind(p: string, m: string, n: string)
    requires p + m == p + n
    ensures m == n
  {
    assert (p + m)[|p|..] == m && (p + n)[|p|..] == n;
  }

  // A numeral ends where the first blank is.
  lemma NumeralEnds(n: nat, m: nat, s: string, t: string)
    requires s != [] && t != [] && s[0] == ' ' && t[0] == ' '
    requires Decimal(n) + s == Decimal(m) + t
    ensures n == m && s == t
  {
    DecimalParses(n);
    DecimalParses(m);
    var x, y := Decimal(n) + s, Decimal(m) + t;
    assert x[|Decimal(n)|] == ' ' && y[|Decimal(m)|] == ' ';
    assert forall k :: 0 <= k < |Decimal(n)| ==> IsDigit(x[k]);
    assert forall k :: 0 <= k < |Decimal(m)| ==> IsDigit(y[k]);
    assert |Decimal(n)| == |Decimal(m)|;
    assert Decimal(n) == x[..|Decimal(n)|] == y[..|Decimal(m)|] == Decimal(m);
    Behind(Decimal(n), s, t);
  }

  lemma SameCount(n: nat, last: string, m: nat, other: string)
    requires Display(RetriesExhausted(n, last)) == Display(RetriesExhausted(m, other))
    ensures n == m && last == other
  {
    var p, q := "retries exhausted after ", " attempts: ";
    assert Display(RetriesExhausted(n, last)) == p + (Decimal(n) + (q + last));
    assert Display(RetriesExhausted(m, other)) == p + (Decimal(m) + (q + other));
    Behind(p, Decimal(n) + (q + last), Decimal(m) + (q + other));
    NumeralEnds(n, m, q + last, q + other);
    Behind(q, last, other);
  }

  // The kinds differ in their first letter, or in the third.
  lemma KindsDiffer(e: ClientError)
    ensures |Display(e)| > 2
    ensures Display(e)[0] == (match e
                              case Transport(_) => 't'
                              case RetriesExhausted(_, _) => 'r'
                              case Closed => 'c'
                              case StreamIo(_) => 's'
                              case InvalidResponse(_) => 'i'
                              case RequestBuild(_) => 'r')
    ensures Display(e)[0] == 'r' ==> Display(e)[2] == if e.RequestBuild? then 'q' else 't'
  {
  }

  /** The text of an error tells its kind and all it carries. */
  lemma DisplayTellsAll(e: ClientError, f: ClientError)
    requires Display(e) == Display(f)
    ensures e == f
  {
    KindsDiffer(e);
    KindsDiffer(f);
    match e
    case Transport(m) => Behind("transport error: ", m, f.message);
    case RetriesExhausted(n, last) => SameCount(n, last, f.attempts, f.lastError);
    case Closed =>
    case StreamIo(m) => Behind("stream I/O error: ", m, f.message);
    case InvalidResponse(m) => Behind("invalid response: ", m, f.message);
    case RequestBuild(m) => Behind("request build error: ", m, f.message);
  }

  function Carried(e: ClientError): string {
    match e
    case Transport(m) => m
    case RetriesExhausted(_, last) => last
    case Closed => ""
    case StreamIo(m) => m
    case InvalidResponse(m) => m
    case RequestBuild(m) => m
  }

  /** And it ends in the message that the error carries. */
  lemma DisplayEndsInMessage(e: ClientError)
    ensures |Carried(e)| < |Display(e)| && Display(e)[|Display(e)| - |Carried(e)|..] == Carried(e)
  {
  }
}
