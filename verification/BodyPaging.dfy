/** Paging a recorded body through size-bounded envelopes. */
module BodyPaging {

  const LIMIT: nat := 65536

  type Byte = x: int | 0 <= x < 256

  /** The size of an encoded envelope: with or without its inline headers, carrying the bytes from one offset to another. */
  type Sizer = (bool, nat, nat) -> nat

  datatype Page = Fits(end: nat, headers: bool) | NoRoom | MetadataTooBig

  function Min(a: nat, b: nat): nat {
    if a < b then a else b
  }

  /** Dropping the inline headers is checked against the limit on its own; `bare` is the envelope's size without a body. */
  predicate HeadersMayGo(bare: nat) {
    bare <= LIMIT
  }

  // ---- Shrinking a page ----

  /** The byte count tried after `count` bytes came out as `encoded`: proportionally fewer, and at least one fewer. */
  function Shrunk(count: nat, encoded: nat): (next: nat)
    requires count > 0 && encoded > LIMIT
    ensures next < count
  {
    var next := count * LIMIT / encoded;
    if next >= count then count - 1 else if next < 0 then 0 else next
  }

  /** Nothing is left to try exactly when the page took more than its byte count times the limit. */
  lemma ShrunkAway(count: nat, encoded: nat)
    requires count > 0 && encoded > LIMIT
    ensures Shrunk(count, encoded) == 0 <==> encoded > count * LIMIT
  {
    var total := count * LIMIT;
    assert total < encoded ==> total / encoded == 0;
    if total >= encoded { AtLeastOnce(total, encoded); }
  }

  lemma AtLeastOnce(total: nat, part: nat)
    requires 0 < part <= total
    ensures total / part >= 1
  {
    assert total == part * (total / part) + total % part;
  }

  /** The size of an envelope with `count` bytes from `offset`. */
  function Encoded(size: Sizer, headers: bool, offset: nat, count: nat): nat {
    size(headers, offset, offset + count)
  }

  /** The byte count the shrinking comes to rest at; zero when it shrinks away. */
  function Settles(size: Sizer, headers: bool, offset: nat, count: nat): (r: nat)
    ensures r <= count
    ensures r > 0 ==> Encoded(size, headers, offset, r) <= LIMIT
    decreases count
  {
    if count == 0 || Encoded(size, headers, offset, count) <= LIMIT then count
    else Settles(size, headers, offset, Shrunk(count, Encoded(size, headers, offset, count)))
  }

  lemma SettlesUnfolds(size: Sizer, headers: bool, offset: nat, end: nat)
    requires offset <= end
    ensures size(headers, offset, end) == Encoded(size, headers, offset, end - offset)
    ensures var count, encoded := end - offset, size(headers, offset, end);
            Settles(size, headers, offset, count) ==
              if count == 0 || encoded <= LIMIT then count else Settles(size, headers, offset, Shrunk(count, encoded))
  {
    hide Shrunk;
    assert offset + (end - offset) == end;
  }

  lemma SettlesNothing(size: Sizer, headers: bool, offset: nat)
    ensures Settles(size, headers, offset, 0) == 0
  {
  }

  /** A page within its bounds that holds at least one byte unless the body is exhausted, in an envelope that fits. */
  predicate PageOk(page: Page, length: nat, offset: nat, maxBytes: nat, withHeaders: bool, size: Sizer) {
    page.Fits? ==>
      && offset <= page.end <= length && page.end <= offset + maxBytes && (offset < length ==> offset < page.end)
      && size(page.headers, offset, page.end) <= LIMIT && (page.headers ==> withHeaders)
  }

  /** Where the shrinking of a page comes to rest decides it: with the headers inline, else without them if they may go. */
  function Verdict(length: nat, offset: nat, count: nat, withHeaders: bool, size: Sizer, bare: nat): Page {
    if offset == length then (if size(withHeaders, offset, offset) > LIMIT then MetadataTooBig else Fits(offset, withHeaders))
    else if withHeaders && Settles(size, true, offset, count) > 0 then Fits(offset + Settles(size, true, offset, count), true)
    else if withHeaders && !HeadersMayGo(bare) then MetadataTooBig
    else if Settles(size, false, offset, count) > 0 then Fits(offset + Settles(size, false, offset, count), false)
    else NoRoom
  }

  /** Shrinks the page until its envelope fits, and gives the inline headers up once before giving up. */
  method FitPage(length: nat, offset: nat, maxBytes: nat, withHeaders: bool, size: Sizer, bare: nat) returns (page: Page)
    requires offset <= length && maxBytes > 0
    ensures PageOk(page, length, offset, maxBytes, withHeaders, size)
    ensures page == Verdict(length, offset, Min(maxBytes, length - offset), withHeaders, size, bare)
  {
    hide Shrunk, Settles, Encoded;
    var headers := withHeaders;
    var end := Min(offset + maxBytes, length);
    ghost var count: nat := Min(maxBytes, length - offset);
    while true
      invariant offset <= end <= offset + count && (headers ==> withHeaders)
      invariant offset == length ==> headers == withHeaders
      invariant Settles(size, headers, offset, end - offset) == Settles(size, headers, offset, count)
      invariant !headers && withHeaders ==> Settles(size, true, offset, count) == 0 && HeadersMayGo(bare)
      decreases headers, end
    {
      if end == offset && end < length {
        SettlesNothing(size, headers, offset);
        if headers {
          if !HeadersMayGo(bare) { return MetadataTooBig; }
          headers, end := false, Min(offset + maxBytes, length);
          continue;
        }
        return NoRoom;
      }
      var encoded := size(headers, offset, end);
      SettlesUnfolds(size, headers, offset, end);
      if encoded <= LIMIT { return Fits(end, headers); }
      var bytes := end - offset;
      if bytes == 0 { return MetadataTooBig; }
      var next := ShrinkStep(bytes, encoded);
      end := offset + next;
    }
  }

  /** The proportional estimate, always at least one byte below the last try. */
  method ShrinkStep(bytes: nat, encoded: nat) returns (next: nat)
    requires bytes > 0 && encoded > LIMIT
    ensures next == Shrunk(bytes, encoded)
  {
    var estimate := bytes * LIMIT / encoded;
    if estimate >= bytes { estimate := bytes - 1; }
    next := if estimate < 0 then 0 else estimate;
  }

  // ---- When room is refused ----

  /** A page grows by at most the limit with each byte after the first. */
  ghost predicate GrowsByLimit(size: Sizer, headers: bool, offset: nat, count: nat) {
    forall n: nat | 1 <= n <= count :: Encoded(size, headers, offset, n) <= Encoded(size, headers, offset, 1) + (n - 1) * LIMIT
  }

  /** No page is smaller than the one of a single byte. */
  ghost predicate OneByteIsLeast(size: Sizer, headers: bool, offset: nat, count: nat) {
    forall n: nat | 1 <= n <= count :: Encoded(size, headers, offset, 1) <= Encoded(size, headers, offset, n)
  }

  /** For pages that grow by no more than the limit with each byte, room is refused only if not one byte fits;
      and exactly then when one byte makes the smallest page. */
  lemma {:induction false} RefusedExactly(size: Sizer, headers: bool, offset: nat, count: nat)
    requires count > 0 && GrowsByLimit(size, headers, offset, count)
    ensures Settles(size, headers, offset, count) == 0 ==> Encoded(size, headers, offset, 1) > LIMIT
    ensures OneByteIsLeast(size, headers, offset, count) ==>
              (Settles(size, headers, offset, count) == 0 <==> Encoded(size, headers, offset, 1) > LIMIT)
    decreases count
  {
    hide Encoded;
    var encoded := Encoded(size, headers, offset, count);
    if encoded > LIMIT {
      var next := Shrunk(count, encoded);
      ShrunkAway(count, encoded);
      if next > 0 { RefusedExactly(size, headers, offset, next); }
      else { assert encoded <= Encoded(size, headers, offset, 1) + (count - 1) * LIMIT; }
    }
  }

  /** So a page is refused for want of room exactly when a single byte fits neither with the headers inline nor without them. */
  lemma NoRoomExactly(length: nat, offset: nat, count: nat, withHeaders: bool, size: Sizer, bare: nat)
    requires offset < length && 0 < count <= length - offset
    requires forall h: bool :: GrowsByLimit(size, h, offset, count) && OneByteIsLeast(size, h, offset, count)
    ensures Verdict(length, offset, count, withHeaders, size, bare).NoRoom? <==>
            Encoded(size, false, offset, 1) > LIMIT && (withHeaders ==> Encoded(size, true, offset, 1) > LIMIT && HeadersMayGo(bare))
  {
    hide Settles, Encoded, GrowsByLimit, OneByteIsLeast;
    RefusedExactly(size, false, offset, count);
    RefusedExactly(size, true, offset, count);
  }

  /** An encoder that spends at most the limit on each further byte grows by no more than the limit. */
  lemma {:induction false} StepwiseGrowth(size: Sizer, headers: bool, offset: nat, count: nat)
    requires forall n: nat | 1 < n <= count :: Encoded(size, headers, offset, n) <= Encoded(size, headers, offset, n - 1) + LIMIT
    ensures GrowsByLimit(size, headers, offset, count)
  {
    hide Encoded;
    if count > 1 {
      StepwiseGrowth(size, headers, offset, count - 1);
      assert Encoded(size, headers, offset, count - 1) <= Encoded(size, headers, offset, 1) + (count - 2) * LIMIT;
    }
  }

  function Jumps(headers: bool, from: nat, to: nat): nat {
    if to == from + 1 then 1 else 2 * LIMIT + 1
  }

  /** Growth matters: a size that jumps by more than the limit is refused room though its first byte fits. */
  lemma JumpIsRefused()
    ensures Encoded(Jumps, false, 0, 1) <= LIMIT && Verdict(2, 0, 2, false, Jumps, 0) == NoRoom && !GrowsByLimit(Jumps, false, 0, 2)
  {
    assert Encoded(Jumps, false, 0, 2) == 2 * LIMIT + 1;
    ShrunkAway(2, 2 * LIMIT + 1);
    assert Settles(Jumps, false, 0, 0) == 0;
    assert Encoded(Jumps, false, 0, 2) > Encoded(Jumps, false, 0, 1) + (2 - 1) * LIMIT;
  }

  // ---- Following continuations ----

  /** A byte fits at every offset, pages grow by no more than the limit, and the metadata alone fits. */
  ghost predicate Roomy(length: nat, withHeaders: bool, size: Sizer, bare: nat) {
    && (forall offset: nat | offset < length :: Encoded(size, false, offset, 1) <= LIMIT && GrowsByLimit(size, false, offset, length - offset))
    && size(withHeaders, length, length) <= LIMIT && HeadersMayGo(bare)
  }

  lemma RoomyNeverRefuses(length: nat, withHeaders: bool, size: Sizer, bare: nat, offset: nat, count: nat)
    requires Roomy(length, withHeaders, size, bare) && offset < length && 0 < count <= length - offset
    ensures !Verdict(length, offset, count, withHeaders, size, bare).NoRoom? && !Verdict(length, offset, count, withHeaders, size, bare).MetadataTooBig?
  {
    assert GrowsByLimit(size, false, offset, length - offset);
    RefusedExactly(size, false, offset, count);
  }

  /** The pages a reader collects by following continuations from the start, while every page succeeds. */
  method ReadAll(body: seq<Byte>, maxBytes: nat, withHeaders: bool, size: Sizer, bare: nat) returns (data: seq<Byte>, whole: bool)
    requires maxBytes > 0
    ensures whole ==> data == body
    ensures !whole ==> data <= body && (data != body || body == [])
    ensures Roomy(|body|, withHeaders, size, bare) ==> whole
  {
    data := [];
    var offset := 0;
    while true
      invariant offset <= |body| && data == body[..offset]
      invariant offset == |body| ==> body == []
      decreases |body| - offset
    {
      var page := FitPage(|body|, offset, maxBytes, withHeaders, size, bare);
      if !page.Fits? {
        if Roomy(|body|, withHeaders, size, bare) && offset < |body| {
          RoomyNeverRefuses(|body|, withHeaders, size, bare, offset, Min(maxBytes, |body| - offset));
        }
        return data, false;
      }
      data := data + body[offset..page.end];
      offset := page.end;
      if offset == |body| { return data, true; }
    }
  }
}
