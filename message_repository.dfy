/** `MessageRepository` (src/main/java/simpleserver/repository/MessageRepository.java):
    a bounded buffer of messages waiting to be persisted, and the fix-up of the
    closing bracket of the JSON array at the end of the messages file when the
    server starts and when it shuts down. The file is a byte sequence edited in place
    through a `RandomAccessFile`. */
module MessageRepositories {
  import opened JavaLang
  import opened Messages

  /** The `ArrayBlockingQueue` capacity of `messagesToSave`. */
  const SaveCapacity: nat := 50

  newtype Byte = x: int | 0 <= x < 256

  const OpenBracket: Byte := 91   // '['
  const CloseBracket: Byte := 93  // ']'
  const Comma: Byte := 44         // ','

  /** A `RandomAccessFile` opened in "rw" mode: the file's bytes and the file
      pointer. */
  class RandomAccessFile {
    var content: seq<Byte>
    var pointer: nat

    predicate Valid()
      reads this
    {
      pointer <= |content|
    }

    constructor Open(initial: seq<Byte>)
      ensures Valid() && content == initial && pointer == 0
    {
      content := initial;
      pointer := 0;
    }

    /** `length()`. */
    function Length(): (n: nat)
      reads this
      ensures n == |content|
    {
      |content|
    }

    /** `seek(pos)`. */
    method Seek(pos: nat)
      requires pos <= |content|
      modifies this
      ensures Valid() && pointer == pos && content == old(content)
    {
      pointer := pos;
    }

    /** `readByte()`: the byte at the pointer, which then moves past it. */
    method ReadByte() returns (b: Byte)
      requires pointer < |content|
      modifies this
      ensures Valid()
      ensures b == old(content[pointer]) && pointer == old(pointer) + 1 && content == old(content)
    {
      b := content[pointer];
      pointer := pointer + 1;
    }

    /** `setLength(n)` for a shorter length: the file is truncated and a pointer past
        the new end is moved back to it. */
    method SetLength(n: nat)
      requires n <= |content|
      modifies this
      ensures Valid()
      ensures content == old(content[..n])
      ensures pointer == if old(pointer) > n then n else old(pointer)
    {
      content := content[..n];
      if pointer > n {
        pointer := n;
      }
    }

    /** `write(b)`: overwrites the byte at the pointer, or extends the file when the
        pointer is at its end; the pointer moves past it. */
    method Write(b: Byte)
      requires Valid()
      modifies this
      ensures Valid() && pointer == old(pointer) + 1
      ensures content == if old(pointer) < old(|content|) then old(content[pointer := b]) else old(content) + [b]
    {
      if pointer < |content| {
        content := content[pointer := b];
      } else {
        content := content + [b];
      }
      pointer := pointer + 1;
    }
  }

  /** The file content left by `startupFormatting`: a trailing ']' is removed, and a
      ',' takes its place when more than one byte remains, so that later appended
      records continue the array. Other content is left as it is. */
  function StartupFormatted(c: seq<Byte>): seq<Byte> {
    if |c| > 0 && c[|c| - 1] == CloseBracket then
      var t := c[..|c| - 1];
      if |t| > 1 then t + [Comma] else t
    else c
  }

  /** The file content left by `shutdownFormatting`: a trailing ',' becomes ']'. */
  function ShutdownFormatted(c: seq<Byte>): seq<Byte> {
    if |c| > 0 && c[|c| - 1] == Comma then c[..|c| - 1] + [CloseBracket] else c
  }

  /** `startupFormatting(filePath)` on the opened file. */
  method StartupFormatting(file: RandomAccessFile)
    requires file.Valid()
    modifies file
    ensures file.content == StartupFormatted(old(file.content))
  {
    var fileLength := file.Length();
    if fileLength > 0 {
      file.Seek(fileLength - 1);
      var lastChar := file.ReadByte();
      if lastChar == CloseBracket {
        file.SetLength(fileLength - 1);
        if file.Length() > 1 {
          file.Write(Comma);
        }
      }
    }
  }

  /** `shutdownFormatting()` on the opened file. */
  method ShutdownFormatting(file: RandomAccessFile)
    requires file.Valid()
    modifies file
    ensures file.content == ShutdownFormatted(old(file.content))
  {
    var fileLength := file.Length();
    if fileLength > 0 {
      file.Seek(fileLength - 1);
      var lastChar := file.ReadByte();
      if lastChar == Comma {
        file.SetLength(fileLength - 1);
        file.Write(CloseBracket);
      }
    }
  }

  /** Startup leaves empty content and content not ending in ']' unchanged; on
      content ending in ']' it drops that byte and ends the rest with ',' only when
      more than one byte remains. */
  lemma {:induction false} StartupCases(c: seq<Byte>)
    ensures |c| == 0 || c[|c| - 1] != CloseBracket ==> StartupFormatted(c) == c
    ensures |c| > 2 && c[|c| - 1] == CloseBracket ==>
      StartupFormatted(c) == c[..|c| - 1] + [Comma] && |StartupFormatted(c)| == |c|
    ensures c == [OpenBracket, CloseBracket] ==> StartupFormatted(c) == [OpenBracket]
  {
  }

  /** Shutdown keeps the length of the content and changes at most its last byte: a
      trailing ',' becomes ']', anything else is left alone. */
  lemma {:induction false} ShutdownChangesOnlyTrailingComma(c: seq<Byte>)
    ensures |ShutdownFormatted(c)| == |c|
    ensures forall i :: 0 <= i < |c| - 1 ==> ShutdownFormatted(c)[i] == c[i]
    ensures |c| > 0 && c[|c| - 1] == Comma ==> ShutdownFormatted(c)[|c| - 1] == CloseBracket
    ensures |c| == 0 || c[|c| - 1] != Comma ==> ShutdownFormatted(c) == c
  {
  }

  /** Reopening and closing the array without saving anything restores content that
      ended in ']' and was longer than two bytes. */
  lemma {:induction false} ShutdownUndoesStartup(c: seq<Byte>)
    requires |c| > 2 && c[|c| - 1] == CloseBracket
    ensures ShutdownFormatted(StartupFormatted(c)) == c
  {
    var t := c[..|c| - 1];
    assert StartupFormatted(c) == t + [Comma];
    assert (t + [Comma])[..|t|] == t;
    assert t + [CloseBracket] == c;
  }

  /** The records a run of the saver thread appends: each message's JSON text
      followed by ','. */
  function Records(jsons: seq<seq<Byte>>): (r: seq<Byte>)
    ensures jsons != [] ==> |r| > 0 && r[|r| - 1] == Comma
    decreases |jsons|
  {
    if jsons == [] then [] else Records(jsons[..|jsons| - 1]) + jsons[|jsons| - 1] + [Comma]
  }

  /** Whatever was saved since startup, shutdown turns the trailing ',' of the last
      record into the closing ']' and changes nothing before it. */
  lemma {:induction false} ShutdownClosesArray(prefix: seq<Byte>, jsons: seq<seq<Byte>>)
    requires jsons != []
    ensures var body := prefix + Records(jsons);
      ShutdownFormatted(body) == body[..|body| - 1] + [CloseBracket]
  {
    var body := prefix + Records(jsons);
    assert body[|body| - 1] == Records(jsons)[|Records(jsons)| - 1];
  }

  /** A whole server run on a file holding a closed array of more than two bytes:
      the array is reopened with ',', records are appended, and shutdown closes it
      again, the original content (without its ']') followed by the records, the
      last one ending in ']'. */
  lemma {:induction false} SessionKeepsArrayClosed(c: seq<Byte>, jsons: seq<seq<Byte>>)
    requires |c| > 2 && c[|c| - 1] == CloseBracket && jsons != []
    ensures var body := c[..|c| - 1] + [Comma] + Records(jsons);
      StartupFormatted(c) == c[..|c| - 1] + [Comma] &&
      ShutdownFormatted(StartupFormatted(c) + Records(jsons)) == body[..|body| - 1] + [CloseBracket]
  {
    StartupCases(c);
    ShutdownClosesArray(StartupFormatted(c), jsons);
  }

  /** The repository's buffer of messages waiting to be written. */
  class MessageRepository {
    var messagesToSave: seq<Message>

    predicate Valid()
      reads this
    {
      |messagesToSave| <= SaveCapacity
    }

    constructor ()
      ensures Valid() && messagesToSave == []
    {
      messagesToSave := [];
    }

    /** `saveMessage(message)`: `ArrayBlockingQueue.add` puts the message at the tail,
        or throws `IllegalStateException` when the buffer is full. */
    method SaveMessage(message: Message) returns (r: Outcome<Unit>)
      requires Valid()
      modifies this
      ensures Valid()
      ensures old(|messagesToSave|) < SaveCapacity ==> r == Returned(Unit) && messagesToSave == old(messagesToSave) + [message]
      ensures old(|messagesToSave|) >= SaveCapacity ==> r == Threw(IllegalState) && messagesToSave == old(messagesToSave)
    {
      if |messagesToSave| < SaveCapacity {
        messagesToSave := messagesToSave + [message];
        r := Returned(Unit);
      } else {
        r := Threw(IllegalState);
      }
    }

    /** `take()` on a non-empty buffer, as the saver loop calls it: the oldest
        message leaves first. */
    method Take() returns (m: Message)
      requires Valid() && messagesToSave != []
      modifies this
      ensures Valid()
      ensures m == old(messagesToSave[0]) && messagesToSave == old(messagesToSave[1..])
    {
      m := messagesToSave[0];
      messagesToSave := messagesToSave[1..];
    }
  }
}
