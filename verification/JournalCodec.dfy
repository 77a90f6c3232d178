/** journal.jsonl as bytes: one encoded entry per line, and a reader that stops at the first
    line that does not decode (manager/store/fsstore_journal.go). The JSON encoding itself is
    a parameter; all that is asked of it is what torn-line detection relies on. */
module JournalCodec {
  import opened Base

  newtype byte = x: int | 0 <= x < 256
  const NEWLINE: byte := 10

  /** dec stands for json.Valid followed by json.Unmarshal; None is a line replay stops at. */
  datatype Codec<!E> = Codec(enc: E -> seq<byte>, dec: seq<byte> -> Option<E>)

  ghost predicate Sound<E(!new)>(c: Codec<E>) {
    && (forall e :: NEWLINE !in c.enc(e))
    && (forall e :: c.dec(c.enc(e)) == Some(e))
    && (forall e, n :: 0 <= n < |c.enc(e)| ==> c.dec(c.enc(e)[..n]) == None)
  }

  function Line<E>(c: Codec<E>, e: E): seq<byte> {
    c.enc(e) + [NEWLINE]
  }

  function EncodeAll<E>(c: Codec<E>, es: seq<E>): seq<byte> {
    if es == [] then [] else Line(c, es[0]) + EncodeAll(c, es[1..])
  }

  /** What the line scanner of replayJournal yields: a final line without its newline is still
      a line, and the first line that does not decode ends the replay. */
  function Parse<E>(c: Codec<E>, bytes: seq<byte>): (es: seq<E>) {
    if bytes == [] then []
    else
      var i := IndexOf(bytes, NEWLINE);
      match c.dec(bytes[..i])
      case None => []
      case Some(e) => [e] + (if i < |bytes| then Parse(c, bytes[i + 1..]) else [])
  }

  lemma SoundAt<E(!new)>(c: Codec<E>, e: E)
    requires Sound(c)
    ensures NEWLINE !in c.enc(e) && c.dec(c.enc(e)) == Some(e)
  {
  }

  lemma SoundPrefix<E(!new)>(c: Codec<E>, e: E, tail: seq<byte>)
    requires Sound(c) && tail <= c.enc(e)
    ensures NEWLINE !in tail
    ensures c.dec(tail) == if |tail| < |c.enc(e)| then None else Some(e)
  {
    assert tail == c.enc(e)[..|tail|];
    assert c.enc(e) == c.enc(e)[..|c.enc(e)|];
  }

  lemma IndexOfMissing<T>(s: seq<T>, x: T)
    requires x !in s
    ensures IndexOf(s, x) == |s|
  {
  }

  lemma IndexOfAfter<T>(s: seq<T>, x: T, rest: seq<T>)
    requires x !in s
    ensures IndexOf(s + [x] + rest, x) == |s|
  {
    var whole := s + [x] + rest;
    var i := IndexOf(whole, x);
    assert whole[|s|] == x;
    assert forall j :: 0 <= j < |s| ==> whole[j] == s[j];
    assert forall j :: 0 <= j < i ==> whole[j] == whole[..i][j];
  }

  lemma ParseLine<E(!new)>(c: Codec<E>, e: E, rest: seq<byte>)
    requires Sound(c)
    ensures Parse(c, Line(c, e) + rest) == [e] + Parse(c, rest)
  {
    hide Sound;
    SoundAt(c, e);
    var s := Line(c, e) + rest;
    IndexOfAfter(c.enc(e), NEWLINE, rest);
    assert s[..|c.enc(e)|] == c.enc(e);
    assert s[|c.enc(e)| + 1..] == rest;
  }

  /** A last line cut short reads as nothing, unless only its newline is missing. */
  lemma ParseTail<E(!new)>(c: Codec<E>, e: E, tail: seq<byte>)
    requires Sound(c) && tail <= c.enc(e)
    ensures Parse(c, tail) == if |tail| < |c.enc(e)| || tail == [] then [] else [e]
  {
    hide Sound;
    SoundPrefix(c, e, tail);
    IndexOfMissing(tail, NEWLINE);
    assert tail[..|tail|] == tail;
  }

  /** A file cut anywhere inside its last line reads back as the lines before the cut, plus the
      cut line exactly when only its newline is missing. */
  lemma {:induction false} ParseTorn<E(!new)>(c: Codec<E>, es: seq<E>, e: E, tail: seq<byte>)
    requires Sound(c)
    requires tail <= Line(c, e)
    ensures Parse(c, EncodeAll(c, es) + tail) == es + (if |tail| < |c.enc(e)| || tail == [] then [] else [e])
  {
    hide Sound;
    if es != [] {
      Assoc(Line(c, es[0]), EncodeAll(c, es[1..]), tail);
      ParseLine(c, es[0], EncodeAll(c, es[1..]) + tail);
      ParseTorn(c, es[1..], e, tail);
      Assoc([es[0]], es[1..], if |tail| < |c.enc(e)| || tail == [] then [] else [e]);
    } else {
      assert EncodeAll(c, es) + tail == tail;
      if |tail| == |c.enc(e)| + 1 {
        assert tail == Line(c, e) + [];
        ParseLine(c, e, []);
      } else {
        assert tail <= c.enc(e);
        ParseTail(c, e, tail);
      }
    }
  }

  /** What a clean file holds is read back exactly. */
  lemma {:induction false} ParseEncodeAll<E(!new)>(c: Codec<E>, es: seq<E>)
    requires Sound(c)
    ensures Parse(c, EncodeAll(c, es)) == es
  {
    hide Sound;
    if es != [] {
      ParseLine(c, es[0], EncodeAll(c, es[1..]));
      ParseEncodeAll(c, es[1..]);
    }
  }

  lemma {:induction false} EncodeAllAppend<E>(c: Codec<E>, a: seq<E>, b: seq<E>)
    ensures EncodeAll(c, a + b) == EncodeAll(c, a) + EncodeAll(c, b)
  {
    if a == [] {
      assert a + b == b;
    } else {
      EncodeAllAppend(c, a[1..], b);
      assert (a + b)[1..] == a[1..] + b && (a + b)[0] == a[0];
      Assoc(Line(c, a[0]), EncodeAll(c, a[1..]), EncodeAll(c, b));
    }
  }
}
