/**
 The upload service: the loop over multipart parts with its file accounting, the commit of the source file, and the
 creation of the row.
 */
module Submissions {
  import opened Protocol
  import opened Database
  import opened Storage
  import opened Bytes

  /** One part of the form: its name, its file name, and the bytes its reader will give in which pieces. */
  datatype Part = Part(name: string, filename: string, data: seq<byte>, plan: seq<Piece>, broken: bool)

  /** How NextPart ends: no more parts, the body limit hit, or another error. */
  datatype Ending = NoMoreParts | TooLarge | Garbled

  datatype Refusal =
    | UnknownPart | MultipleText | MultipleFiles | BothSources | NoSource | InvalidExtension
    | BodyTooLarge | MultipartError | SourceError(error: SaveError) | ParticipantError | CommitError | CreateRefused
  datatype Reply = Accepted(id: SubmissionId) | Denied(why: Refusal)

  function Lower(c: char): char { if 'A' <= c <= 'Z' then c + ('a' - 'A') else c }

  /** ValidateExtension: the last two characters are ".c", in either case. */
  predicate ValidExtension(filename: string) {
    |filename| >= 2 && filename[|filename| - 2] == '.' && Lower(filename[|filename| - 1]) == 'c'
  }

  predicate SafeKey(key: string) {
    key != "" && '/' !in key && '\\' !in key && !(exists i :: 0 <= i < |key| - 1 && key[i] == '.' && key[i + 1] == '.')
  }

  // ----- What the parts amount to -----

  const TEXT_PART := "source_text"
  const FILE_PART := "source_file"

  datatype Form = Content(content: seq<byte>) | Rejected(why: Refusal)

  /** Why a part cannot follow a good first part: there is no good second part. */
  function SecondPart(first: Part, second: Part): Refusal {
    if second.name != TEXT_PART && second.name != FILE_PART then UnknownPart
    else if first.name != second.name then BothSources
    else if second.name == TEXT_PART then MultipleText
    else MultipleFiles
  }

  function Ended(ending: Ending, otherwise: Form): Form {
    match ending
    case TooLarge => Rejected(BodyTooLarge)
    case Garbled => Rejected(MultipartError)
    case NoMoreParts => otherwise
  }

  /** What a form amounts to, without a loop: it is good only if it is one good part and nothing else. */
  function FormOf(parts: seq<Part>, ending: Ending, maxSize: int): (form: Form)
    requires Int64(maxSize)
    ensures form.Content? ==> |parts| == 1 && ending.NoMoreParts? && form.content == WithoutBom(parts[0].data)
  {
    if parts == [] then Ended(ending, Rejected(NoSource))
    else if parts[0].name != TEXT_PART && parts[0].name != FILE_PART then Rejected(UnknownPart)
    else if parts[0].name == FILE_PART && !ValidExtension(parts[0].filename) then Rejected(InvalidExtension)
    else
      match Judge(WithoutBom(parts[0].data), parts[0].broken, maxSize)
      case Bad(e) => Rejected(SourceError(e))
      case Good(content) =>
        if |parts| >= 2 then Rejected(SecondPart(parts[0], parts[1])) else Ended(ending, Content(content))
  }

  /** The end of a file name that is accepted. */
  lemma ExtensionIs(stem: string, filename: string)
    ensures ValidExtension(stem + ".c") && ValidExtension(stem + ".C")
    ensures ValidExtension(filename) ==>
              |filename| >= 2 && (filename[|filename| - 2..] == ".c" || filename[|filename| - 2..] == ".C")
  {
  }

  /** The key of a submission is safe if its id has neither separators nor dots; a path or a way up never is. */
  lemma KeyIs(id: string, key: string)
    ensures '/' !in id && '\\' !in id && '.' !in id ==> SafeKey(id + ".c")
    ensures '/' in key || '\\' in key || key == "" || key == ".." ==> !SafeKey(key)
  {
    if key == ".." {
      assert key[0] == '.' && key[0 + 1] == '.';
    }
  }

  predicate GoodText(p: Part, maxSize: int)
    requires Int64(maxSize)
  {
    p.name == "source_text" && Judge(WithoutBom(p.data), p.broken, maxSize) == Good(WithoutBom(p.data))
  }

  predicate GoodFile(p: Part, maxSize: int)
    requires Int64(maxSize)
  {
    && p.name == "source_file" && ValidExtension(p.filename)
    && Judge(WithoutBom(p.data), p.broken, maxSize) == Good(WithoutBom(p.data))
  }

  /** A form is good exactly if it is one good text or one good file, and its end was read. */
  lemma FormIsGoodIff(parts: seq<Part>, ending: Ending, maxSize: int)
    requires Int64(maxSize)
    ensures FormOf(parts, ending, maxSize).Content? <==>
            |parts| == 1 && ending == NoMoreParts && (GoodText(parts[0], maxSize) || GoodFile(parts[0], maxSize))
  {
  }

  /** The answer to every bad form: by its first part, then by its second, then by its end. */
  lemma RefusalsSpelledOut(parts: seq<Part>, ending: Ending, maxSize: int)
    requires Int64(maxSize)
    ensures parts == [] ==> FormOf(parts, ending, maxSize) == Rejected(
              match ending case NoMoreParts => NoSource case TooLarge => BodyTooLarge case Garbled => MultipartError)
    ensures parts != [] && parts[0].name != "source_text" && parts[0].name != "source_file" ==>
              FormOf(parts, ending, maxSize) == Rejected(UnknownPart)
    ensures parts != [] && parts[0].name == "source_file" && !ValidExtension(parts[0].filename) ==>
              FormOf(parts, ending, maxSize) == Rejected(InvalidExtension)
    ensures parts != [] && (parts[0].name == "source_text"
                            || (parts[0].name == "source_file" && ValidExtension(parts[0].filename)))
            && Judge(WithoutBom(parts[0].data), parts[0].broken, maxSize).Bad? ==>
              FormOf(parts, ending, maxSize)
              == Rejected(SourceError(Judge(WithoutBom(parts[0].data), parts[0].broken, maxSize).error))
    ensures |parts| == 1 && (GoodText(parts[0], maxSize) || GoodFile(parts[0], maxSize)) && ending != NoMoreParts ==>
              FormOf(parts, ending, maxSize) == Rejected(if ending == TooLarge then BodyTooLarge else MultipartError)
    ensures |parts| >= 2 && (GoodText(parts[0], maxSize) || GoodFile(parts[0], maxSize)) ==>
              var first, second := parts[0].name, parts[1].name;
              FormOf(parts, ending, maxSize) == Rejected(
                if second != "source_text" && second != "source_file" then UnknownPart
                else if first == "source_text" && second == "source_text" then MultipleText
                else if first == "source_file" && second == "source_file" then MultipleFiles
                else BothSources)
  {
  }

  // ----- The file accounting -----

  datatype CommitFaults = CommitFaults(renameFails: bool, chmodFails: bool)

  datatype Faults = Faults(io: nat -> IoFaults, upsertFails: bool, commit: CommitFaults, create: Fault)

  /** Commit: the temporary file becomes the stored source, or disappears. Only a failing chmod, after the rename, leaves
      the stored file although an error is returned. */
  method Commit(fs: Files, key: string, temp: Path, faults: CommitFaults) returns (ok: bool)
    requires fs.Valid() && temp.Temp? && temp in fs.files
    modifies fs`files
    ensures fs.Valid()
    ensures ok <==> SafeKey(key) && Stored(key) !in old(fs.files) && !faults.renameFails && !faults.chmodFails
    ensures fs.files ==
            if SafeKey(key) && Stored(key) !in old(fs.files) && !faults.renameFails
            then (old(fs.files) - {temp})[Stored(key) := old(fs.files)[temp]]
            else old(fs.files) - {temp}
  {
    if !SafeKey(key) {
      fs.Remove(temp);
      return false;
    }
    if Stored(key) in fs.files {
      fs.Remove(temp);
      return false;
    }
    if faults.renameFails {
      fs.Remove(temp);
      return false;
    }
    var content := fs.files[temp];
    fs.Remove(temp);
    fs.files := fs.files[Stored(key) := content];
    ok := !faults.chmodFails;
  }

  /** Either no temporary file is held, or exactly one beyond the files that were there before. */
  ghost predicate Holding(fs: Files, before: map<Path, seq<byte>>, temp: Option<Path>, kept: Option<seq<byte>>)
    reads fs
  {
    && fs.Valid()
    && (temp.None? <==> kept.None?)
    && (temp.None? ==> fs.files == before)
    && (temp.Some? ==> temp.value.Temp? && temp.value !in before && fs.files == before[temp.value := kept.value])
  }

  method CleanUp(fs: Files, temp: Option<Path>, ghost before: map<Path, seq<byte>>, ghost kept: Option<seq<byte>>)
    requires Holding(fs, before, temp, kept)
    modifies fs`files
    ensures fs.Valid() && fs.files == before
  {
    if temp.Some? {
      fs.Remove(temp.value);
    }
  }

  /** The loop over the parts, which never finishes a second round. On a refusal no temporary file is left; otherwise
      there is one, with the content. */
  method ReceiveParts(fs: Files, parts: seq<Part>, ending: Ending, maxSize: int,
                      hash: seq<byte> -> string, io: nat -> IoFaults)
    returns (temp: Option<Path>, why: Option<Refusal>)
    requires fs.Valid() && Int64(maxSize)
    modifies fs
    ensures fs.Valid() && (temp.Some? <==> why.None?)
    ensures why.Some? ==> fs.files == old(fs.files)
    ensures temp.Some? ==>
      && FormOf(parts, ending, maxSize).Content?
      && Holding(fs, old(fs.files), temp, Some(FormOf(parts, ending, maxSize).content))
    ensures (forall i :: io(i).Fine()) && why.Some? ==> FormOf(parts, ending, maxSize) == Rejected(why.value)
  {
    var seenText, seenFile := false, false;
    temp, why := None, None;
    ghost var kept: Option<seq<byte>> := None;
    ghost var before := fs.files;
    var i := 0;
    while i < |parts|
      invariant 0 <= i <= 1 && i <= |parts| && why.None? && Holding(fs, before, temp, kept)
      invariant i == 0 ==> !seenText && !seenFile && kept.None?
      invariant i == 1 ==> GoodFirst(parts[0], seenText, seenFile, maxSize)
                           && kept == Some(WithoutBom(parts[0].data))
    {
      var p := parts[i];
      if p.name != TEXT_PART && p.name != FILE_PART {
        why := Some(UnknownPart);
        if seenText || seenFile {
          CleanUp(fs, temp, before, kept);
          temp := None;
        }
        return;
      }
      if p.name == TEXT_PART {
        if seenText || seenFile {
          CleanUp(fs, temp, before, kept);
          return None, Some(if seenText then MultipleText else BothSources);
        }
        seenText := true;
      }
      if p.name == FILE_PART {
        if seenFile || seenText {
          CleanUp(fs, temp, before, kept);
          return None, Some(if seenFile then MultipleFiles else BothSources);
        }
        if !ValidExtension(p.filename) {
          // No clean-up: the extension is only looked at while nothing is held.
          return None, Some(InvalidExtension);
        }
        seenFile := true;
      }
      var source := new Source(p.data, p.plan, p.broken);
      var reader := StripBom(source);
      var saved := fs.SaveStream(reader, maxSize, hash, io(i));
      if saved.SaveFailed? {
        return None, Some(SourceError(saved.error));
      }
      // The source's check for a file that is already held cannot be true here.
      assert temp.None?;
      temp := Some(saved.temp);
      kept := Some(WithoutBom(p.data));
      i := i + 1;
    }
    if !ending.NoMoreParts? {
      CleanUp(fs, temp, before, kept);
      temp, why := None, Some(if ending.TooLarge? then BodyTooLarge else MultipartError);
    } else if !seenText && !seenFile {
      why := Some(NoSource);
    }
  }

  predicate GoodFirst(p: Part, seenText: bool, seenFile: bool, maxSize: int)
    requires Int64(maxSize)
  {
    && seenText == (p.name == TEXT_PART) && seenFile == (p.name == FILE_PART) && (seenText || seenFile)
    && (seenFile ==> ValidExtension(p.filename))
    && Judge(WithoutBom(p.data), p.broken, maxSize) == Good(WithoutBom(p.data))
  }

  /** Nothing goes wrong before the commit of the source file. */
  ghost predicate Reaches(before: map<Path, seq<byte>>, id: SubmissionId, faults: Faults) {
    && (forall i :: faults.io(i).Fine()) && !faults.upsertFails
    && SafeKey(id.text + ".c") && Stored(id.text + ".c") !in before
  }

  /** CreateSubmission after the checks of the request. No temporary file is ever left. The stored source and the row
      appear together, but for two faults: a chmod that fails after the rename leaves a source without a row, and a
      commit whose reply is lost leaves a row whose source was deleted. */
  method CreateSubmission(
    fs: Files, db: Tables, id: SubmissionId, participant: ParticipantId, parts: seq<Part>, ending: Ending,
    maxSize: int, maxActive: int, maxQueued: int, now: nat, hash: seq<byte> -> string, faults: Faults)
    returns (reply: Reply)
    requires fs.Valid() && db.Valid() && Int64(maxSize)
    modifies fs, db
    ensures fs.Valid() && db.Valid()
    ensures forall n: nat :: Temp(n) in fs.files <==> Temp(n) in old(fs.files)
    ensures var key := Stored(id.text + ".c");
            var form := FormOf(parts, ending, maxSize);
            && (reply.Accepted? ==>
                  && reply.id == id && |parts| == 1 && form.Content? && key !in old(fs.files)
                  && fs.files == old(fs.files)[key := form.content]
                  && id !in old(db.rows) && db.rows == old(db.rows)[id := NewRow(participant)])
            && (reply.Denied? ==>
                  && (fs.files == old(fs.files)
                      || (faults.commit.chmodFails && form.Content? && fs.files == old(fs.files)[key := form.content]
                          && db.rows == old(db.rows)))
                  && (db.rows == old(db.rows)
                      || (faults.create.ReplyLost? && fs.files == old(fs.files)
                          && db.rows == old(db.rows)[id := NewRow(participant)])))
    ensures Reaches(old(fs.files), id, faults) && faults.commit == CommitFaults(false, false) && faults.create.NoFault? ==>
            (reply.Accepted? <==>
              && FormOf(parts, ending, maxSize).Content?
              && CreateOutcome(old(db.rows), id, participant, maxActive, maxQueued).Created?)
    // Exactly when the source and the row part: in no case but these two.
    ensures (forall i :: faults.io(i).Fine()) && Stored(id.text + ".c") !in old(fs.files) && id !in old(db.rows) ==>
            ((Stored(id.text + ".c") in fs.files) != (id in db.rows) <==>
              && FormOf(parts, ending, maxSize).Content? && !faults.upsertFails
              && SafeKey(id.text + ".c") && !faults.commit.renameFails
              && (faults.commit.chmodFails
                  || (faults.create.ReplyLost?
                      && CreateOutcome(old(db.rows), id, participant, maxActive, maxQueued).Created?)))
    // Both faults do part the source from the row.
    ensures Reaches(old(fs.files), id, faults) && faults.commit == CommitFaults(false, true)
            && FormOf(parts, ending, maxSize).Content? ==>
            Stored(id.text + ".c") in fs.files && db.rows == old(db.rows)
    ensures Reaches(old(fs.files), id, faults) && faults.commit == CommitFaults(false, false) && faults.create.ReplyLost?
            && FormOf(parts, ending, maxSize).Content?
            && CreateOutcome(old(db.rows), id, participant, maxActive, maxQueued).Created? ==>
            id in db.rows && fs.files == old(fs.files)
  {
    ghost var before := fs.files;
    var temp, why := ReceiveParts(fs, parts, ending, maxSize, hash, faults.io);
    if why.Some? { return Denied(why.value); }
    ghost var content := FormOf(parts, ending, maxSize).content;
    if faults.upsertFails {
      CleanUp(fs, temp, before, Some(content));
      return Denied(ParticipantError);
    }
    var key := id.text + ".c";
    var committed := Commit(fs, key, temp.value, faults.commit);
    assert before[temp.value := content] - {temp.value} == before;
    if !committed { return Denied(CommitError); }
    var err := db.CreateSubmissionQueued(id, participant, maxActive, maxQueued, now, faults.create);
    if err != Created {
      fs.Remove(Stored(key));
      assert before[Stored(key) := content] - {Stored(key)} == before;
      return Denied(CreateRefused);
    }
    reply := Accepted(id);
  }
}
