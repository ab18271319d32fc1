// A channel that plays a buffer by DMA: which samples are heard, and when it asks for an interrupt.

module AudioPlay {
  import Division
  import opened Options
  import opened Audio

  type Half = v: int | 0 <= v < 0x1_0000

  // audio_hsync for a playing channel whose DMA is on: the next word is fetched if one has been asked for.
  function Fetch(d: Channel, mem: int -> Half): Channel {
    if d.requestWord <= 0 then d
    else d.(dat2 := mem(d.pt), pt := if d.dmaen && d.requestWord <= 2 then d.pt + 2 else d.pt, requestWord := -1)
  }

  // The j-th word of a buffer of so many words, played over and over.
  function WordAt(mem: int -> Half, lc: int, words: nat, j: nat): Half
    requires words > 0
  {
    mem(lc + 2 * (j % words))
  }

  // About to play word j, with the one after it fetched: what the counter and the pointer are then.
  ghost predicate Looping(d: Channel, mem: int -> Half, words: nat, j: nat) {
    && 1 <= words <= 0x1_0000 && d.len == words % 0x1_0000
    && d.state == 2 && d.dmaen && !d.attachVolume && !d.attachPeriod && d.requestWord == -1 && !d.intreq2
    && d.dat == WordAt(mem, d.lc, words, j) && d.dat2 == WordAt(mem, d.lc, words, j + 1)
    && d.wlen == (if j % words == words - 1 then words else words - 1 - j % words) % 0x1_0000
    && d.pt == d.lc + (if j % words == words - 1 then 2 else 2 * (j % words) + 4)
  }

  lemma NextIndex(j: nat, words: nat)
    requires words > 0
    ensures (j + 1) % words == if j % words == words - 1 then 0 else j % words + 1
  {
    var q, r := j / words, j % words;
    if r == words - 1 {
      assert j + 1 == (q + 1) * words;
      Division.Unique(j + 1, words, q + 1, 0);
    } else {
      Division.Unique(j + 1, words, q, r + 1);
    }
  }

  // One word: two events and a fetch. First the high byte is heard, then the low one.
  lemma OneWord(d: Channel, mem: int -> Half, words: nat, j: nat, irq: bool, later: bool)
    requires Looping(d, mem, words, j)
    ensures var high := Own(d, irq); var low := Own(high, later);
      && high.evtime == low.evtime == Some(d.per)
      && high.current == (if d.audible then WordAt(mem, d.lc, words, j) / 256 else 0)
      && low.current == (if d.audible then WordAt(mem, d.lc, words, j) % 256 else 0) && low.last == high.current
      && Looping(Fetch(low, mem), mem, words, j + 1)
      && Fetch(low, mem).lc == d.lc && Fetch(low, mem).audible == d.audible
  {
    NextIndex(j, words);
    NextIndex(j + 1, words);
    Bytes(d.dat);
  }

  // The interrupt comes with the low byte, if the word after the next is the first of the buffer again.
  lemma AsksIff(d: Channel, mem: int -> Half, words: nat, j: nat, irq: bool, later: bool)
    requires Looping(d, mem, words, j)
    ensures !Interrupts(d, irq) && (Interrupts(Own(d, irq), later) <==> (j + 2) % words == 0)
  {
    NextIndex(j, words);
    NextIndex(j + 1, words);
  }

  lemma Bytes(dat: int)
    requires 0 <= dat < 0x1_0000
    ensures (dat / 256) % 256 == dat / 256 && ((dat * 256) % 0x1_0000 / 256) % 256 == dat % 256
  {
    assert dat * 256 == (dat / 256) * 0x1_0000 + (dat % 256) * 256;
    Division.Unique(dat * 256, 0x1_0000, dat / 256, (dat % 256) * 256);
  }

  // The channel after n words, whatever the interrupt requests are meanwhile.
  function AfterWords(d: Channel, mem: int -> Half, irq: nat -> bool, n: nat): Channel {
    if n == 0 then d else
      var e := AfterWords(d, mem, irq, n - 1);
      Fetch(Own(Own(e, irq(2 * n - 2)), irq(2 * n - 1)), mem)
  }

  // The samples heard meanwhile.
  function Samples(d: Channel, mem: int -> Half, irq: nat -> bool, n: nat): (r: seq<int>)
    ensures |r| == 2 * n
  {
    if n == 0 then [] else
      var e := AfterWords(d, mem, irq, n - 1);
      var high := Own(e, irq(2 * n - 2));
      Samples(d, mem, irq, n - 1) + [high.current, Own(high, irq(2 * n - 1)).current]
  }

  // A byte of memory, high bytes first.
  function ByteAt(mem: int -> Half, lc: int, k: nat): int {
    if k % 2 == 0 then mem(lc + k) / 256 else mem(lc + k - 1) % 256
  }

  lemma BytesOfWord(mem: int -> Half, lc: int, words: nat, j: nat)
    requires words > 0
    ensures WordAt(mem, lc, words, j) / 256 == ByteAt(mem, lc, (2 * j) % (2 * words))
    ensures WordAt(mem, lc, words, j) % 256 == ByteAt(mem, lc, (2 * j + 1) % (2 * words))
  {
    var q, r := j / words, j % words;
    assert 2 * j == q * (2 * words) + 2 * r;
    Division.Unique(2 * j, 2 * words, q, 2 * r);
    Division.Unique(2 * j + 1, 2 * words, q, 2 * r + 1);
  }

  // The buffer is heard byte by byte, from the first to the last and then from the first again.
  lemma {:induction false} BufferIsHeard(d: Channel, mem: int -> Half, words: nat, irq: nat -> bool, n: nat)
    requires Looping(d, mem, words, 0) && d.audible
    ensures Looping(AfterWords(d, mem, irq, n), mem, words, n)
    ensures AfterWords(d, mem, irq, n).lc == d.lc && AfterWords(d, mem, irq, n).audible
    ensures forall k | 0 <= k < 2 * n :: Samples(d, mem, irq, n)[k] == ByteAt(mem, d.lc, k % (2 * words))
  {
    hide Looping, Own, Fetch, WordAt, ByteAt;
    if n > 0 {
      BufferIsHeard(d, mem, words, irq, n - 1);
      OneWord(AfterWords(d, mem, irq, n - 1), mem, words, n - 1, irq(2 * n - 2), irq(2 * n - 1));
      BytesOfWord(mem, d.lc, words, n - 1);
      assert words > 0 by { SomeWords(d, mem, words); }
    }
  }

  lemma SomeWords(d: Channel, mem: int -> Half, words: nat)
    requires Looping(d, mem, words, 0)
    ensures words > 0
  {
  }

  // What an event of a channel changes elsewhere: the period of the next one, if it is attached for that and the
  // first of the two events of a word, and its volume, if it is attached for that and the second.
  lemma Modulates(c: Setup, s: Sys, nr: nat, k: nat)
    requires Valid(c, s) && nr < 4 && k < 4 && k != nr && (s.ch[nr].state == 2 || s.ch[nr].state == 3)
    ensures var d, e, e' := s.ch[nr], s.ch[k], Handle(c, s, nr).ch[k];
      var on := k == nr + 1 && !(d.state == 2 && !d.dmaen && s.irq[nr]);
      if on && d.state == 2 && d.attachPeriod then
        e' == e.(per := if d.dat2 <= 0 then 0x7fff_ffff
                        else if d.dat2 < c.shortest && c.level < 3 then c.shortest
                        else d.dat2 * 512)
      else if on && d.state == 3 && d.attachVolume then e' == e.(vol := d.dat2)
      else e' == e
  {
    hide Own, Interrupts;
  }
}
