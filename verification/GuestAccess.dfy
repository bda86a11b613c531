/**
 Reading and writing guest memory by linear address, through the one window
 page that the monitor remaps for every access.
 */
module GuestAccess {
  import opened Words
  import opened GuestTables

  // ---------------------------------------------------------------- meaning

  /** The physical address of byte `i` of the object at `l`. */
  function ByteAddr(g: Guest, l: Word, i: nat): Word
    requires Sized(g.mem)
  {
    Translate(g, Wrap(l + i))
  }

  /** Every byte of the object translates into guest memory. */
  predicate Readable(g: Guest, l: Word, len: nat)
    requires Sized(g.mem)
  {
    forall i: nat | i < len :: ByteAddr(g, l, i) < |g.mem|
  }

  /** The object at a linear address, byte by byte; reading it panics otherwise. */
  function ReadBytes(g: Guest, l: Word, len: nat): (r: Outcome<seq<Byte>>)
    requires Sized(g.mem)
    ensures r.Ok? ==> |r.value| == len
  {
    if !Readable(g, l, len) then Panic
    else Ok(seq(len, i requires 0 <= i < len && Readable(g, l, len) => g.mem[ByteAddr(g, l, i)]))
  }

  function ReadDword(g: Guest, l: Word): (r: Outcome<Word>)
    requires Sized(g.mem)
  {
    var bytes :- ReadBytes(g, l, 4);
    LittleEndianUnfolds(bytes);
    Ok(LittleEndian(bytes))
  }

  function ReadWord(g: Guest, l: Word): (r: Outcome<nat>)
    requires Sized(g.mem)
    ensures r.Ok? ==> r.value < 0x1_0000
  {
    var bytes :- ReadBytes(g, l, 2);
    LittleEndianUnfolds(bytes);
    Ok(LittleEndian(bytes))
  }

  /** `writeGuestDWord` refuses to cross a page. */
  function WriteDword(g: Guest, l: Word, v: Word): (r: Outcome<Guest>)
    requires Sized(g.mem)
    ensures r.Ok? ==> Sized(r.value.mem) && |r.value.mem| == |g.mem| && r.value == g.(mem := r.value.mem)
  {
    var p := Translate(g, l);
    if p == NOT_AVAILABLE || p + 3 >= |g.mem| || p % 4096 >= 0xffd then Panic
    else Ok(g.(mem := PutDword(g.mem, p, v)))
  }

  // ---------------------------------------------------------------- inside one page

  /** An object inside one linear page is one contiguous piece of one guest page, or is not there at all. */
  lemma WithinPage(g: Guest, l: Word, len: nat)
    requires Sized(g.mem) && 1 <= len && l % 4096 + len <= 4096
    ensures ReadBytes(g, l, len).Ok? <==> Translate(g, l) < |g.mem|
    ensures Translate(g, l) < |g.mem| ==>
      && Translate(g, l) + len <= |g.mem|
      && Translate(g, l) % 4096 == l % 4096
      && ReadBytes(g, l, len) == Ok(g.mem[Translate(g, l)..Translate(g, l) + len])
  {
    hide Translate, TranslatedPage, ByteAddr;
    var p := Translate(g, l);
    TranslateByPage(g, l);
    if p < |g.mem| {
      Whole(g.mem, TranslatedPage(g, l).value, l % 4096);
    }
    forall i: nat | i < len
      ensures ByteAddr(g, l, i) < |g.mem| <==> p < |g.mem|
      ensures p < |g.mem| ==> ByteAddr(g, l, i) == p + i
    {
      ByteInPage(g, l, i);
    }
    if p < |g.mem| {
      assert Readable(g, l, len);
      assert ReadBytes(g, l, len).value == g.mem[p..p + len];
    } else {
      assert ByteAddr(g, l, 0) >= |g.mem|;
    }
  }

  lemma ByteInPage(g: Guest, l: Word, i: nat)
    requires Sized(g.mem) && l % 4096 + i < 4096
    ensures ByteAddr(g, l, i) < |g.mem| <==> Translate(g, l) < |g.mem|
    ensures Translate(g, l) < |g.mem| ==> ByteAddr(g, l, i) == Translate(g, l) + i
  {
    hide Translate, TranslatedPage;
    OffsetInPage(l, i);
    TranslateByPage(g, l);
    TranslateByPage(g, Wrap(l + i));
  }

  lemma OffsetInPage(l: Word, i: nat)
    requires l % 4096 + i < 4096
    ensures Wrap(l + i) == l + i && (l + i) / 4096 == l / 4096 && (l + i) % 4096 == l % 4096 + i
  {
  }

  /** An object across a page boundary is the end of one page and the start of the next. */
  lemma AcrossPages(g: Guest, l: Word, first: nat, len: nat)
    requires Sized(g.mem) && 1 <= first < len
    ensures var start, end := ReadBytes(g, l, first), ReadBytes(g, Wrap(l + first), len - first);
      ReadBytes(g, l, len) == if start.Ok? && end.Ok? then Ok(start.value + end.value) else Panic
  {
    var l1 := Wrap(l + first);
    forall i: nat | i < len - first
      ensures ByteAddr(g, l1, i) == ByteAddr(g, l, first + i)
    {
      assert Wrap(l1 + i) == Wrap(l + (first + i));
    }
    forall i: nat | first <= i < len
      ensures ByteAddr(g, l, i) == ByteAddr(g, l1, i - first)
    {
      assert i == first + (i - first);
    }
    hide ByteAddr;
    if Readable(g, l, len) {
      assert Readable(g, l1, len - first);
      assert ReadBytes(g, l, len).value == ReadBytes(g, l, first).value + ReadBytes(g, l1, len - first).value;
    }
  }

  lemma AvailableOffset(g: Guest, l: Word, len: nat)
    requires Sized(g.mem) && 1 <= len
    ensures Translate(g, l) == NOT_AVAILABLE ==> ReadBytes(g, l, len).Panic?
    ensures Translate(g, l) != NOT_AVAILABLE ==> Translate(g, l) % 4096 == l % 4096
  {
    hide Translate, TranslatedPage;
    assert ByteAddr(g, l, 0) == Translate(g, l);
    TranslateByPage(g, l);
    if TranslatedPage(g, l).Some? {
      Whole(g.mem, TranslatedPage(g, l).value, l % 4096);
    }
  }

  lemma NextPage(l: Word, len0: nat)
    requires len0 == 4096 - l % 4096
    ensures Wrap(l + len0) % 4096 == 0
  {
  }

  /** The bounds test the source makes on 32-bit words, before it opens the page. */
  lemma BoundsTest(m: Memory, p: Word, len: nat)
    requires Sized(m) && 1 <= len <= 4096 && p % 4096 + len <= 4096
    ensures p > Wrap(|m| - len) || p / 4096 >= Pages(m) <==> p >= |m|
  {
    Whole(m, p / 4096, p % 4096);
    if |m| > 0 {
      assert |m| >= 4096;
    }
  }

  // ---------------------------------------------------------------- through the window

  class Accessor {
    var g: Guest
    /** The guest page now mapped at tmp_phy_page0. */
    var window: nat

    ghost predicate Valid()
      reads this
    {
      Sized(g.mem)
    }

    /** A byte of the window. */
    function Peek(offset: nat): Byte
      requires Sized(g.mem) && window < Pages(g.mem) && offset < 4096
      reads this
    {
      Whole(g.mem, window, offset);
      g.mem[window * 4096 + offset]
    }

    function PeekDword(offset: nat): Word
      requires Sized(g.mem) && window < Pages(g.mem) && offset <= 0xffc
      reads this
    {
      Join4(Peek(offset), Peek(offset + 1), Peek(offset + 2), Peek(offset + 3))
    }

    /** `open_guest_phy_page` on the one window. */
    method OpenPage(page: nat) returns (ok: bool)
      requires Valid()
      modifies this`window
      ensures ok == (page < Pages(g.mem))
      ensures ok ==> window == page
    {
      if page >= |g.mem| / 4096 {
        return false;
      }
      window := page;
      return true;
    }

    /** One level of the walk: map the page of the entry at `addr` and read the entry. */
    method FetchEntry(addr: nat, ghost page: nat, ghost index: nat) returns (raw: Word)
      requires Valid() && page < Pages(g.mem) && index < 1024 && addr == EntryAddr(page, index)
      modifies this`window
      ensures addr + 4 <= |g.mem| && raw == Dword(g.mem, addr)
    {
      EntryInside(g.mem, page, index);
      Whole(g.mem, page, index * 4);
      var ok := OpenPage(addr / 4096);
      raw := PeekDword(addr % 4096);
    }

    /** `translateLinToPhy`: its answer is right, and the window is left wherever the walk left it. */
    method TranslateLinToPhy(l: Word) returns (p: Word)
      requires Valid()
      modifies this`window
      ensures p == Translate(g, l)
    {
      hide LargePages, P, Base, EntryAddr, Dword;
      if !g.pg {
        return l;
      }
      if LargePages(g.cr4) {
        return NOT_AVAILABLE;
      }
      var pdeAddr := PdeAddr(g.cr3, l);
      if pdeAddr >= |g.mem| {
        return NOT_AVAILABLE;
      }
      EntryInside(g.mem, Base(g.cr3), Pdi(l));
      var pde := FetchEntry(pdeAddr, Base(g.cr3), Pdi(l));
      if !P(pde) {
        return NOT_AVAILABLE;
      }
      var pteAddr := PteAddr(pde, l);
      if pteAddr >= |g.mem| {
        return NOT_AVAILABLE;
      }
      EntryInside(g.mem, Base(pde), Pti(l));
      var pte := FetchEntry(pteAddr, Base(pde), Pti(l));
      if !P(pte) {
        return NOT_AVAILABLE;
      }
      return Base(pte) * 4096 + l % 4096;
    }

    /** Copy `len` bytes out of the window. */
    method CopyOut(offset: nat, len: nat) returns (bytes: seq<Byte>)
      requires Valid() && window < Pages(g.mem) && offset + len <= 4096
      ensures window * 4096 + offset + len <= |g.mem|
      ensures bytes == g.mem[window * 4096 + offset..window * 4096 + offset + len]
    {
      Whole(g.mem, window, 0);
      bytes := [];
      for i := 0 to len
        invariant bytes == g.mem[window * 4096 + offset..window * 4096 + offset + i]
      {
        bytes := bytes + [Peek(offset + i)];
      }
    }

    /**
     `getObjectLAddr`: for every address and length it yields the bytes at the
     translation of each linear address, and panics exactly when some byte has
     none, though translating and reading share one window.
     */
    method GetObjectLAddr(l: Word, len: nat) returns (r: Outcome<seq<Byte>>)
      requires Valid() && 1 <= len <= 4096
      modifies this`window
      ensures r == ReadBytes(g, l, len)
    {
      hide Translate, TranslatedPage, ReadBytes, Wrap, Pages;
      var p0 := TranslateLinToPhy(l);
      AvailableOffset(g, l, len);
      if p0 == NOT_AVAILABLE {
        return Panic;
      }
      var off := p0 % 4096;
      if off <= 0x1000 - len {
        WithinPage(g, l, len);
        BoundsTest(g.mem, p0, len);
        if p0 > Wrap(|g.mem| - len) {
          return Panic;
        }
        var ok := OpenPage(p0 / 4096);
        if !ok {
          return Panic;
        }
        var bytes := CopyOut(off, len);
        return Ok(bytes);
      }
      var len0 := 0x1000 - off;
      var len1 := len - len0;
      AcrossPages(g, l, len0, len);
      WithinPage(g, l, len0);
      NextPage(l, len0);
      WithinPage(g, Wrap(l + len0), len1);
      var p1 := TranslateLinToPhy(Wrap(l + len0));
      AvailableOffset(g, Wrap(l + len0), len1);
      BoundsTest(g.mem, p0, len0);
      if p1 != NOT_AVAILABLE {
        BoundsTest(g.mem, p1, len1);
      }
      if p1 == NOT_AVAILABLE || p0 > Wrap(|g.mem| - len0) || p1 > Wrap(|g.mem| - len1) {
        return Panic;
      }
      var ok0 := OpenPage(p0 / 4096);
      if !ok0 {
        return Panic;
      }
      var bytes0 := CopyOut(off, len0);
      var ok1 := OpenPage(p1 / 4096);
      if !ok1 {
        return Panic;
      }
      var bytes1 := CopyOut(0, len1);
      return Ok(bytes0 + bytes1);
    }

    /** `getGuestDWord`: the in-page fast path equals the general case. */
    method GetGuestDWord(l: Word) returns (r: Outcome<Word>)
      requires Valid()
      modifies this`window
      ensures r == ReadDword(g, l)
    {
      var off := l % 4096;
      if off > 0x1000 - 4 {
        var bytes := GetObjectLAddr(l, 4);
        if bytes.Panic? {
          return Panic;
        }
        LittleEndianUnfolds(bytes.value);
        return Ok(LittleEndian(bytes.value));
      }
      hide Translate, ReadBytes;
      WithinPage(g, l, 4);
      var p := TranslateLinToPhy(l);
      AvailableOffset(g, l, 4);
      if p != NOT_AVAILABLE {
        BoundsTest(g.mem, p, 4);
      }
      if p == NOT_AVAILABLE || p > Wrap(|g.mem| - 4) {
        return Panic;
      }
      var ok := OpenPage(p / 4096);
      if !ok {
        return Panic;
      }
      Whole(g.mem, p / 4096, off);
      LittleEndianUnfolds(ReadBytes(g, l, 4).value);
      return Ok(PeekDword(off));
    }

    /** `getGuestWord`. */
    method GetGuestWord(l: Word) returns (r: Outcome<nat>)
      requires Valid()
      modifies this`window
      ensures r == ReadWord(g, l)
    {
      var off := l % 4096;
      if off > 0x1000 - 2 {
        var bytes := GetObjectLAddr(l, 2);
        if bytes.Panic? {
          return Panic;
        }
        return Ok(LittleEndian(bytes.value));
      }
      hide Translate, ReadBytes;
      WithinPage(g, l, 2);
      var p := TranslateLinToPhy(l);
      AvailableOffset(g, l, 2);
      if p != NOT_AVAILABLE {
        BoundsTest(g.mem, p, 2);
      }
      if p == NOT_AVAILABLE || p > Wrap(|g.mem| - 2) {
        return Panic;
      }
      var ok := OpenPage(p / 4096);
      if !ok {
        return Panic;
      }
      Whole(g.mem, p / 4096, off);
      LittleEndianUnfolds(ReadBytes(g, l, 2).value);
      return Ok(Join2(Peek(off), Peek(off + 1)));
    }

    /** `writeGuestDWord`. */
    method WriteGuestDWord(l: Word, v: Word) returns (ok: bool)
      requires Valid()
      modifies this
      ensures ok == WriteDword(old(g), l, v).Ok?
      ensures ok ==> Valid() && g == WriteDword(old(g), l, v).value
    {
      var p := TranslateLinToPhy(l);
      if p == NOT_AVAILABLE || p >= Wrap(|g.mem| - 3) || p % 4096 >= 0xffd {
        return false;
      }
      ok := OpenPage(p / 4096);
      if ok {
        g := g.(mem := PutDword(g.mem, window * 4096 + p % 4096, v));
      }
    }
  }
}
