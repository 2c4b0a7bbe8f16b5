/**
 Streaming intake of one source: a reader that may split its bytes in any way and may end in an error, the removal of a
 byte order mark, and SaveStream with its temporary file.
 */
module Storage {
  import opened Protocol
  import opened Bytes

  datatype ReadEnd = More | Eof | Broken

  /** How one Read behaves: at most `size` bytes, and whether the end is reported together with the last bytes. */
  datatype Piece = Piece(size: nat, eager: bool)

  /** An io.Reader over fixed bytes. `plan` is the chunking; after it, reads fill the buffer. The end is sticky. */
  class Source {
    var rest: seq<byte>
    var plan: seq<Piece>
    const broken: bool

    constructor (data: seq<byte>, plan: seq<Piece>, broken: bool)
      ensures rest == data && this.plan == plan && this.broken == broken
    {
      rest, this.plan, this.broken := data, plan, broken;
    }

    function End(): ReadEnd { if broken then Broken else Eof }

    method Read(max: nat) returns (chunk: seq<byte>, end: ReadEnd)
      requires max > 0
      modifies this
      ensures |chunk| <= max && chunk <= old(rest) && rest == old(rest)[|chunk|..]
      ensures end.More? || (end == End() && rest == [])
      ensures end.More? ==> |rest| + |plan| < old(|rest| + |plan|)
      ensures |plan| <= old(|plan|)
    {
      var eager := false;
      var n := max;
      if plan != [] {
        if plan[0].size < n { n := plan[0].size; }
        eager := plan[0].eager;
        plan := plan[1..];
      } else if rest == [] {
        return [], End();
      }
      if |rest| < n { n := |rest|; }
      chunk := rest[..n];
      rest := rest[n..];
      end := if rest == [] && eager then End() else More;
    }
  }

  /** io.MultiReader of some bytes already read and the source they came from. */
  class Prefixed {
    var prefix: seq<byte>
    const source: Source

    constructor (prefix: seq<byte>, source: Source)
      ensures this.prefix == prefix && this.source == source
    {
      this.prefix, this.source := prefix, source;
    }

    function Contents(): seq<byte>
      reads this, source
    {
      prefix + source.rest
    }

    method Read(max: nat) returns (chunk: seq<byte>, end: ReadEnd)
      requires max > 0
      modifies this, source
      ensures |chunk| <= max && chunk <= old(Contents()) && Contents() == old(Contents())[|chunk|..]
      ensures end.More? || (end == source.End() && Contents() == [])
      ensures end.More? ==> |prefix| + |source.rest| + |source.plan| < old(|prefix| + |source.rest| + |source.plan|)
    {
      if prefix != [] {
        var n := if |prefix| < max then |prefix| else max;
        chunk, end := prefix[..n], More;
        prefix := prefix[n..];
        assert old(Contents())[n..] == prefix + source.rest;
      } else {
        chunk, end := source.Read(max);
        assert old(Contents()) == old(source.rest) && Contents() == source.rest;
      }
    }
  }

  const BOM: seq<byte> := [0xEF, 0xBB, 0xBF]

  function WithoutBom(data: seq<byte>): seq<byte> {
    if BOM <= data then data[3..] else data
  }

  /** A leading EF BB BF goes, once; any other text stays as it is. */
  lemma WithoutBomIs(data: seq<byte>, rest: seq<byte>)
    ensures WithoutBom([0xEF, 0xBB, 0xBF] + rest) == rest
    ensures !([0xEF, 0xBB, 0xBF] <= data) ==> WithoutBom(data) == data
  {
    assert ([0xEF, 0xBB, 0xBF] + rest)[3..] == rest;
  }

  /** stripBOM: exactly the three bytes EF BB BF at the start go, however the reader splits them. */
  method StripBom(source: Source) returns (reader: Prefixed)
    modifies source
    ensures fresh(reader) && reader.source == source
    ensures reader.Contents() == WithoutBom(old(source.rest))
    ensures |old(source.rest)| - |source.rest| <= 3
  {
    var peek: seq<byte> := [];
    var end := More;
    while |peek| < 3 && end.More?
      invariant |peek| <= 3 && old(source.rest) == peek + source.rest
      invariant end.More? || source.rest == []
      decreases end.More?, |source.rest| + |source.plan|
    {
      var chunk;
      chunk, end := source.Read(3 - |peek|);
      peek := peek + chunk;
    }
    if |peek| < 3 {
      assert !(BOM <= old(source.rest));
      reader := new Prefixed(peek, source);
    } else if peek[0] == 0xEF && peek[1] == 0xBB && peek[2] == 0xBF {
      assert peek == BOM;
      reader := new Prefixed([], source);
    } else {
      reader := new Prefixed(peek, source);
    }
    assert reader.Contents() == WithoutBom(old(source.rest));
  }

  // ----- Files -----

  datatype Path = Temp(number: nat) | Stored(key: string)

  /** Failures of the file system while one source is saved. */
  datatype IoFaults = IoFaults(createFails: bool, writeFailsAt: Option<nat>, closeFails: bool)
  {
    predicate Fine() { !createFails && writeFailsAt.None? && !closeFails }
  }

  datatype SaveError = SizeExceeded | ReadFailed | EmptySource | ContainsNul | IoFailed

  datatype Saved = SaveOk(temp: Path, size: nat, sha256: string) | SaveFailed(error: SaveError)

  /** The whole-buffer view of a source: what SaveStream must decide about it. */
  datatype Verdict = Good(content: seq<byte>) | Bad(error: SaveError)

  predicate Blank(b: byte) { b == 0x20 || b == 0x09 || b == 0x0A || b == 0x0D }

  predicate HasContent(data: seq<byte>) { exists i :: 0 <= i < |data| && !Blank(data[i]) }

  /** maxSize + 1 in 64-bit arithmetic. */
  function ReadLimit(maxSize: int): int
    requires -0x8000_0000_0000_0000 <= maxSize < 0x8000_0000_0000_0000
  {
    if maxSize == 0x7FFF_FFFF_FFFF_FFFF then -0x8000_0000_0000_0000 else maxSize + 1
  }

  predicate Int64(n: int) { -0x8000_0000_0000_0000 <= n < 0x8000_0000_0000_0000 }

  /** Oversize first, then a read error, then blankness, then NUL. A limit that is not positive reads nothing. */
  function Judge(content: seq<byte>, broken: bool, maxSize: int): Verdict
    requires Int64(maxSize)
  {
    if ReadLimit(maxSize) <= 0 then Bad(EmptySource)
    else if |content| > maxSize then Bad(SizeExceeded)
    else if broken then Bad(ReadFailed)
    else if !HasContent(content) then Bad(EmptySource)
    else if 0 in content then Bad(ContainsNul)
    else Good(content)
  }

  /** Exactly which sources are good, and which error each other one meets. */
  lemma JudgeSpelledOut(content: seq<byte>, broken: bool, maxSize: int)
    requires 0 <= maxSize < 0x7FFF_FFFF_FFFF_FFFF
    ensures var written := exists i :: 0 <= i < |content| && content[i] !in {0x20, 0x09, 0x0A, 0x0D};
            var v := Judge(content, broken, maxSize);
            && (v == Good(content) <==> |content| <= maxSize && !broken && written && 0 !in content)
            && (v.Good? ==> v.content == content)
            && (v == Bad(SizeExceeded) <==> |content| > maxSize)
            && (v == Bad(ReadFailed) <==> |content| <= maxSize && broken)
            && (v == Bad(EmptySource) <==> |content| <= maxSize && !broken && !written)
            && (v == Bad(ContainsNul) <==> |content| <= maxSize && !broken && written && 0 in content)
  {
    assert forall i :: 0 <= i < |content| ==> (Blank(content[i]) <==> content[i] in {0x20, 0x09, 0x0A, 0x0D});
    if i :| 0 <= i < |content| && content[i] !in {0x20, 0x09, 0x0A, 0x0D} {
      assert !Blank(content[i]);
    }
  }

  /** A limit for which maxSize + 1 is not positive reads nothing, so that every source counts as empty. */
  lemma JudgeWithoutLimit(content: seq<byte>, broken: bool, maxSize: int)
    requires Int64(maxSize)
    ensures maxSize < 0 || maxSize == 0x7FFF_FFFF_FFFF_FFFF <==> ReadLimit(maxSize) <= 0
    ensures ReadLimit(maxSize) <= 0 ==> Judge(content, broken, maxSize) == Bad(EmptySource)
    ensures ReadLimit(maxSize) > 0 ==> ReadLimit(maxSize) == maxSize + 1
  {
  }

  method AnyContent(chunk: seq<byte>) returns (found: bool)
    ensures found <==> HasContent(chunk)
  {
    found := false;
    for i := 0 to |chunk|
      invariant !found && forall j :: 0 <= j < i ==> Blank(chunk[j])
    {
      if !Blank(chunk[i]) { return true; }
    }
  }

  lemma HasContentConcat(a: seq<byte>, b: seq<byte>)
    ensures HasContent(a + b) <==> HasContent(a) || HasContent(b)
  {
    if i :| 0 <= i < |a| && !Blank(a[i]) { assert !Blank((a + b)[i]); }
    if i :| 0 <= i < |b| && !Blank(b[i]) { assert !Blank((a + b)[|a| + i]); }
  }

  class Files {
    var files: map<Path, seq<byte>>
    var nextTemp: nat

    constructor ()
      ensures files == map[] && Valid()
    {
      files, nextTemp := map[], 0;
    }

    ghost predicate Valid()
      reads this
    {
      forall n: nat :: Temp(n) in files ==> n < nextTemp
    }

    method Remove(path: Path)
      requires Valid()
      modifies this`files
      ensures Valid() && files == old(files) - {path}
    {
      files := files - {path};
    }

    /** io.LimitReader on the reader: at most `limit` more bytes, then the end. */
    method LimitedRead(reader: Prefixed, limit: int) returns (chunk: seq<byte>, end: ReadEnd)
      modifies reader, reader.source
      ensures limit <= 0 ==> chunk == [] && end == Eof && reader.Contents() == old(reader.Contents())
      ensures limit > 0 ==>
        && |chunk| <= limit && chunk <= old(reader.Contents()) && reader.Contents() == old(reader.Contents())[|chunk|..]
        && (end.More? || (end == reader.source.End() && reader.Contents() == []))
      ensures end.More? ==> |reader.prefix| + |reader.source.rest| + |reader.source.plan|
                            < old(|reader.prefix| + |reader.source.rest| + |reader.source.plan|)
    {
      if limit <= 0 { return [], Eof; }
      chunk, end := reader.Read(if limit < 32768 then limit else 32768);
    }

    /** The cleanup of every failure path. */
    method Discard(temp: Path, error: SaveError, ghost before: map<Path, seq<byte>>) returns (r: Saved)
      requires Valid() && temp in files && files == before[temp := files[temp]] && temp !in before
      modifies this`files
      ensures Valid() && files == before && r == SaveFailed(error)
    {
      Remove(temp);
      r := SaveFailed(error);
    }

    /** What the loop does with one chunk: inspect it, then refuse it or write it. */
    method Absorb(temp: Path, seen: seq<byte>, chunk: seq<byte>, scan: Scan, maxSize: int, io: IoFaults,
                  ghost before: map<Path, seq<byte>>) returns (next: Scan, error: Option<SaveError>)
      requires Valid() && scan == ScanOf(seen) && temp !in before && files == before[temp := seen]
      modifies this`files
      ensures Valid() && next == ScanOf(seen + chunk)
      ensures error == if |seen| + |chunk| > maxSize then Some(SizeExceeded)
                       else if io.writeFailsAt == Some(|seen|) then Some(IoFailed) else None
      ensures files == if error.Some? then before else before[temp := seen + chunk]
    {
      next := Inspect(scan, seen, chunk);
      error := None;
      if |seen| + |chunk| > maxSize {
        var _ := Discard(temp, SizeExceeded, before);
        error := Some(SizeExceeded);
      } else if io.writeFailsAt == Some(|seen|) {
        var _ := Discard(temp, IoFailed, before);
        error := Some(IoFailed);
      } else {
        files := files[temp := seen + chunk];
      }
    }

    /** SaveStream: for every chunking and every place of a read error the outcome is that of the whole buffer. On
        success there is one new temporary file with exactly the content; on any failure there is none. */
    method SaveStream(reader: Prefixed, maxSize: int, hash: seq<byte> -> string, io: IoFaults) returns (r: Saved)
      requires Valid() && Int64(maxSize)
      modifies this, reader, reader.source
      ensures Valid() && nextTemp >= old(nextTemp)
      ensures r.SaveFailed? ==> files == old(files)
      ensures r.SaveOk? ==>
        && Judge(old(reader.Contents()), reader.source.broken, maxSize) == Good(old(reader.Contents()))
        && r.temp == Temp(old(nextTemp)) && files == old(files)[r.temp := old(reader.Contents())]
        && r.size == |old(reader.Contents())| && r.sha256 == hash(old(reader.Contents()))
      ensures io.Fine() ==> r.SaveOk? == Judge(old(reader.Contents()), reader.source.broken, maxSize).Good?
      ensures io.Fine() && r.SaveFailed? ==>
        Judge(old(reader.Contents()), reader.source.broken, maxSize) == Bad(r.error)
      ensures |old(reader.Contents())| - |reader.Contents()| <= if ReadLimit(maxSize) > 0 then maxSize + 1 else 0
    {
      if io.createFails { return SaveFailed(IoFailed); }
      ghost var before, content := files, reader.Contents();
      var temp := Temp(nextTemp);
      nextTemp := nextTemp + 1;
      files := files[temp := []];
      var limit := ReadLimit(maxSize);
      var hashed: seq<byte> := [];
      var scan := Scan(false, false);
      var end := More;
      assert hashed + reader.Contents() == content;
      while end.More?
        invariant Valid() && nextTemp == old(nextTemp) + 1 && temp == Temp(old(nextTemp)) && temp !in before
        invariant content == hashed + reader.Contents() && files == before[temp := hashed]
        invariant ReadLimit(maxSize) <= 0 ==> hashed == [] && limit <= 0
        invariant ReadLimit(maxSize) > 0 ==> limit == maxSize + 1 - |hashed| && |hashed| <= maxSize
        invariant end.Eof? && ReadLimit(maxSize) > 0 ==> reader.Contents() == [] && !reader.source.broken
        invariant !end.Broken? && scan == ScanOf(hashed)
        decreases end.More?, |reader.prefix| + |reader.source.rest| + |reader.source.plan|
      {
        var chunk;
        chunk, end := LimitedRead(reader, limit);
        limit := limit - |chunk|;
        assert content == (hashed + chunk) + reader.Contents();
        if |chunk| > 0 {
          var error;
          scan, error := Absorb(temp, hashed, chunk, scan, maxSize, io, before);
          if error.Some? { return SaveFailed(error.value); }
          hashed := hashed + chunk;
        }
        if end.Broken? {
          assert hashed == content;
          r := Discard(temp, ReadFailed, before);
          return;
        }
      }
      assert ReadLimit(maxSize) > 0 ==> hashed == content;
      r := Decide(temp, hashed, scan, hash, io, before);
    }

    /** The checks after the loop, in their order. */
    method Decide(temp: Path, data: seq<byte>, scan: Scan, hash: seq<byte> -> string, io: IoFaults,
                  ghost before: map<Path, seq<byte>>) returns (r: Saved)
      requires Valid() && scan == ScanOf(data) && temp !in before && files == before[temp := data]
      modifies this`files
      ensures Valid()
      ensures r == if !HasContent(data) then SaveFailed(EmptySource) else if 0 in data then SaveFailed(ContainsNul)
                   else if io.closeFails then SaveFailed(IoFailed) else SaveOk(temp, |data|, hash(data))
      ensures files == if r.SaveOk? then old(files) else before
    {
      if |data| == 0 || !scan.hasContent {
        r := Discard(temp, EmptySource, before);
      } else if scan.hasNul {
        r := Discard(temp, ContainsNul, before);
      } else if io.closeFails {
        r := Discard(temp, IoFailed, before);
      } else {
        r := SaveOk(temp, |data|, hash(data));
      }
    }
  }

  /** The two flags of the loop. */
  datatype Scan = Scan(hasNul: bool, hasContent: bool)

  function ScanOf(data: seq<byte>): Scan { Scan(0 in data, HasContent(data)) }

  method Inspect(scan: Scan, seen: seq<byte>, chunk: seq<byte>) returns (r: Scan)
    requires scan == ScanOf(seen)
    ensures r == ScanOf(seen + chunk)
  {
    HasContentConcat(seen, chunk);
    r := scan;
    if 0 in chunk { r := r.(hasNul := true); }
    if !r.hasContent {
      var any := AnyContent(chunk);
      r := r.(hasContent := any);
    }
  }
}
