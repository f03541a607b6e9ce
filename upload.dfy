/** `upload_data` (mqtt-client/src/adls.rs): a Data Lake file is created,
    each element of the data is appended at the running byte offset, and the
    file is flushed and closed at the total length. The storage service is
    an oracle that may reject one call, identified by its position in the
    call sequence; the calls made are recorded as a trace. */
module Adls {
  import opened Wrappers

  /** Bytes in the UTF-8 encoding of one Unicode scalar value. */
  function Utf8Width(c: char): (w: nat)
    ensures 1 <= w <= 4
    ensures c as int < 0x80 <==> w == 1
  {
    var k := c as int;
    if k < 0x80 then 1 else if k < 0x800 then 2 else if k < 0x10000 then 3 else 4
  }

  /** `Bytes::from(s).len()`: the length of the UTF-8 encoding of `s`. */
  function Utf8Len(s: string): (n: nat)
    ensures |s| <= n <= 4 * |s|
  {
    if s == [] then 0 else Utf8Width(s[0]) + Utf8Len(s[1..])
  }

  /** Encoded lengths add up over concatenation. */
  lemma {:induction false} Utf8LenAppend(a: string, b: string)
    ensures Utf8Len(a + b) == Utf8Len(a) + Utf8Len(b)
  {
    if a == [] {
      assert a + b == b;
    } else {
      assert (a + b)[1..] == a[1..] + b;
      Utf8LenAppend(a[1..], b);
    }
  }

  /** The total encoded length of the elements. */
  function TotalLen(data: seq<string>): nat {
    if data == [] then 0 else TotalLen(data[..|data| - 1]) + Utf8Len(data[|data| - 1])
  }

  /** The elements written one after the other, with nothing between them. */
  function Concat(data: seq<string>): string {
    if data == [] then [] else Concat(data[..|data| - 1]) + data[|data| - 1]
  }

  /** The total length is the length of the file the elements make up: no
      separator is written between them. */
  lemma {:induction false} TotalLenIsFileLength(data: seq<string>)
    ensures TotalLen(data) == Utf8Len(Concat(data))
  {
    if data != [] {
      TotalLenIsFileLength(data[..|data| - 1]);
      Utf8LenAppend(Concat(data[..|data| - 1]), data[|data| - 1]);
    }
  }

  /** A call made on the file client. */
  datatype StoreCall = Create(container: string, path: string) | Append(offset: int, content: string) | Flush(offset: int, close: bool)

  /** The calls of an upload that nothing rejects: the creation, one append
      per element at the sum of the lengths before it, and the closing
      flush at the total length. */
  function Planned(container: string, path: string, data: seq<string>): (r: seq<StoreCall>)
    ensures |r| == |data| + 2
  {
    [Create(container, path)]
    + seq(|data|, k requires 0 <= k < |data| => Append(TotalLen(data[..k]), data[k]))
    + [Flush(TotalLen(data), true)]
  }

  /** The calls actually made when the store rejects the call numbered
      `rejected`: everything up to and including it, and nothing after. */
  function Attempted(plan: seq<StoreCall>, rejected: Option<nat>): (r: seq<StoreCall>)
    ensures |r| <= |plan| && r == plan[..|r|]
    ensures rejected.Some? && rejected.value < |plan| ==> |r| == rejected.value + 1
    ensures !(rejected.Some? && rejected.value < |plan|) ==> r == plan
  {
    if rejected.Some? && rejected.value < |plan| then plan[..rejected.value + 1] else plan
  }

  /** `upload_data`: `ok` is `false` where the source returns the store's
      error. */
  method UploadData(container: string, path: string, data: seq<string>, rejected: Option<nat>) returns (calls: seq<StoreCall>, ok: bool)
    ensures calls == Attempted(Planned(container, path, data), rejected)
    ensures ok <==> !(rejected.Some? && rejected.value < |data| + 2)
  {
    ghost var plan := Planned(container, path, data);
    calls := [Create(container, path)];
    if rejected == Some(0) {
      ok := false;
      return;
    }
    var offset := 0;
    for i := 0 to |data|
      invariant offset == TotalLen(data[..i])
      invariant calls == plan[..i + 1]
      invariant !(rejected.Some? && rejected.value <= i)
    {
      calls := calls + [Append(offset, data[i])];
      assert calls == plan[..i + 2];
      if rejected == Some(i + 1) {
        ok := false;
        return;
      }
      assert data[..i + 1][..i] == data[..i];
      offset := offset + Utf8Len(data[i]);
    }
    assert data[..|data|] == data;
    calls := calls + [Flush(offset, true)];
    assert calls == plan;
    ok := rejected != Some(|data| + 1);
  }

  /** The file is created once, first; every element is appended once, in
      order; the flush closes the file and comes last. */
  lemma CallOrder(container: string, path: string, data: seq<string>)
    ensures var plan := Planned(container, path, data);
      && plan[0] == Create(container, path)
      && (forall k :: 1 <= k < |plan| ==> !plan[k].Create?)
      && (forall k :: 0 <= k < |data| ==> plan[k + 1].Append? && plan[k + 1].content == data[k])
      && plan[|plan| - 1].Flush? && plan[|plan| - 1].close
  {
  }

  /** Each append starts where the previous one ended, the first at 0, and
      the flush is at the end of the last: the byte ranges tile the file
      with no gap and no overlap. */
  lemma AppendsAreContiguous(container: string, path: string, data: seq<string>)
    ensures var plan := Planned(container, path, data);
      && (|data| > 0 ==> plan[1].offset == 0)
      && (forall k :: 0 <= k < |data| ==> plan[k + 2].offset == plan[k + 1].offset + Utf8Len(data[k]))
  {
    var plan := Planned(container, path, data);
    forall k | 0 <= k < |data|
      ensures plan[k + 2].offset == plan[k + 1].offset + Utf8Len(data[k])
    {
      assert data[..k + 1][..k] == data[..k];
      if k + 1 == |data| {
        assert data[..k + 1] == data;
      }
    }
  }

  /** The flush is at the length of the file the elements make up. */
  lemma FlushAtFileLength(container: string, path: string, data: seq<string>)
    ensures Planned(container, path, data)[|data| + 1] == Flush(Utf8Len(Concat(data)), true)
  {
    TotalLenIsFileLength(data);
  }

  /** With no data there is no append, and the flush is at offset 0. */
  lemma EmptyUpload(container: string, path: string)
    ensures Planned(container, path, []) == [Create(container, path), Flush(0, true)]
  {
  }

  /** Two elements of one and three bytes: appends at 0 and 1, flush at 4. */
  lemma UploadExample()
    ensures Planned("raw", "p", ["a", "éb"]) ==
      [Create("raw", "p"), Append(0, "a"), Append(1, "éb"), Flush(4, true)]
  {
    var data := ["a", "éb"];
    assert data[..0] == [] && data[..1] == ["a"] && data[..2][..1] == ["a"];
    assert Utf8Len("a") == 1;
    assert Utf8Len("éb") == 3 by {
      assert "éb"[1..] == "b";
    }
    assert TotalLen(data[..1]) == 1;
    assert TotalLen(data) == 4 by {
      assert data[..|data| - 1] == ["a"];
    }
    var plan := Planned("raw", "p", data);
    assert plan[1] == Append(0, "a") && plan[2] == Append(1, "éb") && plan[3] == Flush(4, true);
  }
}
