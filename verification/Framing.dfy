/** Length-prefixed frames: four bytes in network byte order (Appendix B of RFC 791), then the content. */
module Framing {
  import opened Types

  /** sizeof(data_) - 1 */
  const MAX_LENGTH := 65534

  /** The low `k` bytes of a number, the most significant first. */
  function Digits(n: nat, k: nat): (w: Bytes)
    ensures |w| == k
  {
    if k == 0 then [] else Digits(n / 256, k - 1) + [(n % 256) as byte]
  }

  function Number(w: Bytes): nat {
    if w == [] then 0 else Number(w[..|w| - 1]) * 256 + w[|w| - 1] as nat
  }

  function Power(k: nat): nat {
    if k == 0 then 1 else 256 * Power(k - 1)
  }

  /** hostToNetwork of a 32-bit word, as the bytes that go out; a larger number loses its high bytes. */
  function ToNetwork(n: nat): (w: Bytes)
    ensures |w| == 4
  {
    Digits(n, 4)
  }

  lemma {:induction false} DigitsNumber(n: nat, k: nat)
    requires n < Power(k)
    ensures Number(Digits(n, k)) == n
  {
    if k > 0 {
      DigitsNumber(n / 256, k - 1);
      assert Digits(n, k)[..k - 1] == Digits(n / 256, k - 1);
    }
  }

  lemma LowDigit(high: nat, low: nat)
    requires low < 256
    ensures (high * 256 + low) / 256 == high && (high * 256 + low) % 256 == low
  {
  }

  lemma {:induction false} NumberDigits(w: Bytes)
    ensures Digits(Number(w), |w|) == w && Number(w) < Power(|w|)
  {
    if w != [] {
      var high, low := Number(w[..|w| - 1]), w[|w| - 1] as nat;
      NumberDigits(w[..|w| - 1]);
      LowDigit(high, low);
      assert high * 256 + low < 256 * Power(|w| - 1);
      assert w == w[..|w| - 1] + [w[|w| - 1]];
    }
  }

  /** The two conversions undo each other. */
  lemma NetworkRoundTrip(n: nat, w: Bytes)
    requires n < 0x1_0000_0000 && |w| == 4
    ensures Number(ToNetwork(n)) == n
    ensures ToNetwork(Number(w)) == w
  {
    assert Power(4) == 256 * (256 * (256 * (256 * Power(0))));
    DigitsNumber(n, 4);
    NumberDigits(w);
  }

  /** Network byte order: the most significant byte comes first. */
  lemma NetworkOrder(n: nat)
    requires n < 0x1_0000_0000
    ensures ToNetwork(n)[0] as nat == n / 16777216
    ensures ToNetwork(n)[1] as nat == n / 65536 % 256
    ensures ToNetwork(n)[2] as nat == n / 256 % 256
    ensures ToNetwork(n)[3] as nat == n % 256
  {
    var a, b, c := n / 256, n / 256 / 256, n / 256 / 256 / 256;
    assert Digits(n, 4) == Digits(a, 3) + [(n % 256) as byte];
    assert Digits(a, 3) == Digits(b, 2) + [(a % 256) as byte];
    assert Digits(b, 2) == Digits(c, 1) + [(b % 256) as byte];
    assert Digits(c, 1) == Digits(c / 256, 0) + [(c % 256) as byte];
  }

  lemma NumberIs(w: Bytes)
    requires |w| == 4
    ensures Number(w) == w[0] as nat * 16777216 + w[1] as nat * 65536 + w[2] as nat * 256 + w[3] as nat
  {
    assert w[..3][..2] == w[..2] && w[..2][..1] == w[..1] && w[..1][..0] == [];
    assert Number(w[..1]) == w[0] as nat;
    assert Number(w[..2]) == Number(w[..1]) * 256 + w[1] as nat;
    assert Number(w[..3]) == Number(w[..2]) * 256 + w[2] as nat;
  }

  /** What do_write queues for one message. */
  function Frame(content: Bytes): Bytes {
    ToNetwork(|content|) + content
  }

  function Frames(contents: seq<Bytes>): Bytes {
    if contents == [] then [] else Frame(contents[0]) + Frames(contents[1..])
  }

  predicate Fits(contents: seq<Bytes>) {
    forall c :: c in contents ==> |c| <= 65534
  }

  lemma {:induction false} FramesAppend(a: seq<Bytes>, b: seq<Bytes>)
    ensures Frames(a + b) == Frames(a) + Frames(b)
  {
    if a == [] {
      assert a + b == b;
    } else {
      assert (a + b)[0] == a[0] && (a + b)[1..] == a[1..] + b;
      FramesAppend(a[1..], b);
    }
  }

  lemma FramesOneMore(a: seq<Bytes>, content: Bytes)
    ensures Frames(a + [content]) == Frames(a) + Frame(content)
  {
    FramesAppend(a, [content]);
    assert [content][1..] == [];
  }

  /** The length that comes first in `bytes`. */
  function Length(bytes: Bytes): nat
    requires |bytes| >= 4
  {
    Number(bytes[..4])
  }

  /** A reader gives up on a length that its buffer cannot hold. */
  predicate TooLong(bytes: Bytes) {
    |bytes| >= 4 && Length(bytes) > MAX_LENGTH
  }

  predicate Complete(bytes: Bytes) {
    |bytes| >= 4 && Length(bytes) <= MAX_LENGTH && 4 + Length(bytes) <= |bytes|
  }

  function First(bytes: Bytes): Bytes
    requires Complete(bytes)
  {
    bytes[4..4 + Length(bytes)]
  }

  function Behind(bytes: Bytes): Bytes
    requires Complete(bytes)
  {
    bytes[4 + Length(bytes)..]
  }

  /** The messages that a reader gets out of `bytes`: those whose frames are complete, up to the first
      length it does not accept. */
  function Parsed(bytes: Bytes): seq<Bytes>
    decreases |bytes|
  {
    if Complete(bytes) then [First(bytes)] + Parsed(Behind(bytes)) else []
  }

  /** What is left of `bytes` behind the messages parsed. */
  function Unparsed(bytes: Bytes): Bytes
    decreases |bytes|
  {
    if Complete(bytes) then Unparsed(Behind(bytes)) else bytes
  }

  lemma FrameFirst(content: Bytes, rest: Bytes)
    requires |content| <= 65534
    ensures
      var bytes := Frame(content) + rest;
      Complete(bytes) && Length(bytes) == |content| && First(bytes) == content && Behind(bytes) == rest
  {
    var bytes := Frame(content) + rest;
    assert bytes[..4] == ToNetwork(|content|);
    NetworkRoundTrip(|content|, ToNetwork(|content|));
    assert Length(bytes) == |content|;
    assert bytes[4..] == content + rest;
  }

  lemma ParseOne(content: Bytes, rest: Bytes)
    requires |content| <= 65534
    ensures Parsed(Frame(content) + rest) == [content] + Parsed(rest)
    ensures Unparsed(Frame(content) + rest) == Unparsed(rest)
  {
    FrameFirst(content, rest);
  }

  /** Framing round trip: frames followed by anything parse to their messages, then what follows. */
  lemma {:induction false} ParseFrames(contents: seq<Bytes>, rest: Bytes)
    requires Fits(contents)
    ensures Parsed(Frames(contents) + rest) == contents + Parsed(rest)
    ensures Unparsed(Frames(contents) + rest) == Unparsed(rest)
    decreases |contents|
  {
    if contents == [] {
      assert Frames(contents) + rest == rest;
    } else {
      var more := Frames(contents[1..]) + rest;
      assert Frames(contents) + rest == Frame(contents[0]) + more by {
        Associates(Frame(contents[0]), Frames(contents[1..]), rest);
      }
      assert contents[0] in contents;
      ParseOne(contents[0], more);
      ParseFrames(contents[1..], rest);
      Associates([contents[0]], contents[1..], Parsed(rest));
      assert contents == [contents[0]] + contents[1..];
    }
  }

  lemma Associates<T>(a: seq<T>, b: seq<T>, c: seq<T>)
    ensures a + b + c == a + (b + c)
  {
  }

  /** A length that does not fit ends the stream: what comes before it is delivered, and nothing after. */
  lemma OverlongStops(contents: seq<Bytes>, n: nat, rest: Bytes)
    requires Fits(contents) && 65534 < n < 0x1_0000_0000
    ensures Parsed(Frames(contents) + (ToNetwork(n) + rest)) == contents
    ensures TooLong(Unparsed(Frames(contents) + (ToNetwork(n) + rest)))
  {
    var tail := ToNetwork(n) + rest;
    ParseFrames(contents, tail);
    assert tail[..4] == ToNetwork(n);
    NetworkRoundTrip(n, ToNetwork(n));
    assert contents + [] == contents;
  }

  /** The longest message that is delivered has 65534 bytes. */
  lemma LimitExactly(content: Bytes, rest: Bytes)
    ensures |content| == 65534 ==> Parsed(Frame(content) + rest) == [content] + Parsed(rest)
    ensures |content| == 65535 ==> Parsed(Frame(content) + rest) == [] && TooLong(Unparsed(Frame(content) + rest))
  {
    if |content| == 65534 {
      ParseOne(content, rest);
    } else if |content| == 65535 {
      OverlongStops([], 65535, content + rest);
      assert Frames([]) + (ToNetwork(65535) + (content + rest)) == Frame(content) + rest;
    }
  }

  /** However much of the frames of `sent` has arrived, what is parsed is a prefix of `sent`, and it is
      all of `sent` when all has arrived. */
  lemma {:induction false} PrefixParsed(sent: seq<Bytes>, bytes: Bytes)
    requires Fits(sent) && bytes <= Frames(sent)
    ensures Parsed(bytes) <= sent
    ensures bytes == Frames(sent) ==> Parsed(bytes) == sent
    ensures !TooLong(Unparsed(bytes))
    decreases |sent|
  {
    if sent != [] && |bytes| >= 4 {
      var all := Frames(sent);
      assert sent[0] in sent;
      FrameFirst(sent[0], Frames(sent[1..]));
      assert bytes[..4] == all[..4];
      if Complete(bytes) {
        assert First(bytes) == First(all);
        assert Behind(bytes) <= Behind(all);
        PrefixParsed(sent[1..], Behind(bytes));
        assert sent == [sent[0]] + sent[1..];
      }
    }
  }
}
