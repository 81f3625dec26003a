/**
 * The per-stream event queue behind both polling engines: a directory of files
 * (the system's temporary directory), each holding one stream's queue as JSON.
 * A file is named after the stream's sanitised (service, stream id) key.
 */
module QueueStore {
  import opened Wrappers
  import opened Json
  import opened Events
  import UrlEncoding

  /** What a queue file holds, as the loaders see it once read and decoded. */
  datatype Stored =
    | EventList(events: seq<Event>)  // a JSON list of {type, data} records, as the engines write it
    | EmptyFile                      // the file exists and is empty
    | Unreadable                     // reading the file failed
    | Scalar(truthy: bool)           // a document that decodes to no array (invalid JSON decodes to null);
                                     // only whether PHP finds the value truthy matters to the loaders

  /** The temporary directory's queue files, shared by every engine instance. */
  class Store {
    const tmpDir: string
    var files: map<string, Stored>

    constructor (tmpDir: string)
      ensures this.tmpDir == tmpDir && files == map[]
    {
      this.tmpDir := tmpDir;
      files := map[];
    }

    /** The file at `path`, or None when there is no such file. */
    function Read(path: string): (r: Option<Stored>)
      reads this
      ensures r.Some? <==> path in files
      ensures r.Some? ==> r.value == files[path]
    {
      if path in files then Some(files[path]) else None
    }

    /** Replaces the whole file at `path` by the JSON list of `events`. */
    method Write(path: string, events: seq<Event>)
      modifies this
      ensures files == old(files)[path := EventList(events)]
    {
      files := files[path := EventList(events)];
    }
  }

  /** The characters a queue key keeps: `[A-Za-z0-9_-]`. */
  predicate IsKeyChar(c: char)
  {
    ('a' <= c <= 'z') || ('A' <= c <= 'Z') || ('0' <= c <= '9') || c == '_' || c == '-'
  }

  function Underscores(n: nat): (r: string)
    ensures |r| == n && forall i :: 0 <= i < n ==> r[i] == '_'
  {
    if n == 0 then "" else "_" + Underscores(n - 1)
  }

  /** `preg_replace('~[^a-zA-Z0-9_\-]~', '_', $s)`. PHP strings are bytes and the pattern
      has no `u` flag, so every byte of a multi-byte UTF-8 character becomes one '_'. */
  function Sanitize(s: string): (r: string)
    ensures |r| == |UrlEncoding.Utf8(s)|
    ensures forall i :: 0 <= i < |r| ==> IsKeyChar(r[i])
    ensures (forall i :: 0 <= i < |s| ==> IsKeyChar(s[i])) ==> r == s
  {
    if s == [] then ""
    else
      var head := if IsKeyChar(s[0]) then [s[0]] else Underscores(|UrlEncoding.Utf8Char(s[0])|);
      assert IsKeyChar(s[0]) ==> s[0] as int < 0x80;
      head + Sanitize(s[1..])
  }

  /** One character: a key character is kept, anything else becomes one '_' per byte of
      its UTF-8 encoding. With `SanitizeConcat` this fixes `Sanitize` on every string. */
  lemma SanitizeChar(c: char)
    ensures Sanitize([c]) == if IsKeyChar(c) then [c] else Underscores(|UrlEncoding.Utf8Char(c)|)
  {
    assert [c][1..] == [];
  }

  lemma {:induction false} SanitizeConcat(a: string, b: string)
    ensures Sanitize(a + b) == Sanitize(a) + Sanitize(b)
  {
    if a == [] {
      assert a + b == b;
    } else {
      assert (a + b)[0] == a[0];
      assert (a + b)[1..] == a[1..] + b;
      SanitizeConcat(a[1..], b);
    }
  }

  /** The key both polling engines derive from a stream identity: one key character
      per UTF-8 byte of `service_stream`. */
  function QueueKey(serviceName: string, streamId: string): (k: string)
    ensures |k| == |UrlEncoding.Utf8(serviceName + "_" + streamId)|
    ensures forall i :: 0 <= i < |k| ==> IsKeyChar(k[i])
  {
    Sanitize(serviceName + "_" + streamId)
  }

  /** No '/' occurs in `s`. */
  predicate NoSlash(s: string)
  {
    forall i :: 0 <= i < |s| ==> s[i] != '/'
  }

  lemma NoSlashConcat(a: string, b: string)
    requires NoSlash(a) && NoSlash(b)
    ensures NoSlash(a + b)
  {
    assert forall i :: |a| <= i < |a + b| ==> (a + b)[i] == b[i - |a|];
  }

  /** `ShortPollingEventStream::buildQueueFilePath`. */
  function ShortQueuePath(tmpDir: string, serviceName: string, streamId: string): string
  {
    tmpDir + "/evq_" + QueueKey(serviceName, streamId) + ".json"
  }

  /** `LongPollingEventStream::buildQueuePath`. */
  function LongQueuePath(tmpDir: string, serviceName: string, streamId: string): string
  {
    tmpDir + "/evq_long_" + QueueKey(serviceName, streamId) + ".json"
  }

  lemma FileNamePiecesHaveNoSlash()
    ensures NoSlash("evq_") && NoSlash("evq_long_") && NoSlash(".json")
  {
  }

  /** `dir + "/" + prefix + key + ".json"` names a file directly inside `dir`. */
  lemma FileInDirectory(dir: string, prefix: string, key: string)
    requires NoSlash(prefix) && NoSlash(key)
    ensures var path := dir + "/" + prefix + key + ".json";
            |path| > |dir| + 1 && path[..|dir| + 1] == dir + "/" && NoSlash(path[|dir| + 1..])
  {
    FileNamePiecesHaveNoSlash();
    NoSlashConcat(prefix, key);
    NoSlashConcat(prefix + key, ".json");
    var path := dir + "/" + prefix + key + ".json";
    assert path == (dir + "/") + (prefix + key + ".json");
  }

  /** Both queue files sit directly in the temporary directory, whatever the service
      name and stream id: the name after `tmpDir + "/"` holds no '/'. */
  lemma QueuePathsStayInDirectory(tmpDir: string, serviceName: string, streamId: string)
    ensures var path := ShortQueuePath(tmpDir, serviceName, streamId);
            |path| > |tmpDir| + 1 && path[..|tmpDir| + 1] == tmpDir + "/" && NoSlash(path[|tmpDir| + 1..])
    ensures var path := LongQueuePath(tmpDir, serviceName, streamId);
            |path| > |tmpDir| + 1 && path[..|tmpDir| + 1] == tmpDir + "/" && NoSlash(path[|tmpDir| + 1..])
  {
    var key := QueueKey(serviceName, streamId);
    assert NoSlash(key);
    FileNamePiecesHaveNoSlash();
    FileInDirectory(tmpDir, "evq_", key);
    FileInDirectory(tmpDir, "evq_long_", key);
    assert tmpDir + "/evq_" + key + ".json" == tmpDir + "/" + "evq_" + key + ".json";
    assert tmpDir + "/evq_long_" + key + ".json" == tmpDir + "/" + "evq_long_" + key + ".json";
  }

  /** The key never holds a '/' or a '.', so a queue file always sits directly in the
      temporary directory, whatever the service name and stream id. */
  lemma QueueKeyStaysInDirectory(serviceName: string, streamId: string)
    ensures forall i :: 0 <= i < |QueueKey(serviceName, streamId)| ==>
              QueueKey(serviceName, streamId)[i] != '/' && QueueKey(serviceName, streamId)[i] != '.'
  {
  }

  /** Two different identities can share one queue: the key is not injective. */
  lemma QueueKeyCollides()
    ensures QueueKey("a_b", "c") == QueueKey("a", "b_c")
  {
    assert "a_b" + "_" + "c" == "a" + "_" + "b_c";
  }

  lemma LongPrefixIsKept()
    ensures Sanitize("long_") == "long_"
  {
    var p := "long_";
    assert forall i :: 0 <= i < |p| ==> IsKeyChar(p[i]);
  }

  /** The short-polling key of service "long" is the long-polling key behind "long_". */
  lemma LongServiceKey(s: string, t: string)
    ensures QueueKey("long", s + "_" + t) == "long_" + QueueKey(s, t)
  {
    var rest := s + "_" + t;
    assert "long" + "_" + rest == "long_" + rest;
    SanitizeConcat("long_", rest);
    LongPrefixIsKept();
  }

  lemma LongPathSpelling(tmpDir: string, key: string)
    ensures tmpDir + "/evq_" + ("long_" + key) + ".json" == tmpDir + "/evq_long_" + key + ".json"
  {
    assert "/evq_" + "long_" == "/evq_long_";
    assert tmpDir + "/evq_" + ("long_" + key) == tmpDir + ("/evq_" + "long_") + key;
  }

  /** Every long-polling stream shares its file with a short-polling stream of the
      service "long": short ("long", s + "_" + t) and long (s, t) name the same file. */
  lemma ShortAndLongPathsCollide(tmpDir: string, s: string, t: string)
    ensures ShortQueuePath(tmpDir, "long", s + "_" + t) == LongQueuePath(tmpDir, s, t)
  {
    LongServiceKey(s, t);
    LongPathSpelling(tmpDir, QueueKey(s, t));
  }

  /** `ShortPollingEventStream::loadQueue`: a missing, empty, unreadable or non-array
      file reads as the empty queue. */
  function LoadShort(content: Option<Stored>): (q: seq<Event>)
    ensures content.None? || !content.value.EventList? ==> q == []
    ensures content.Some? && content.value.EventList? ==> q == content.value.events
  {
    match content
    case Some(EventList(events)) => events
    case _ => []
  }

  /** The error `LongPollingEventStream::loadQueue` raises when it returns a non-array
      from a function declared to return an array. */
  const TypeError: string := "TypeError"

  /** `LongPollingEventStream::loadQueue` as written: `json_decode(...) ?: []` lets a
      truthy non-array value through, which the `array` return type rejects. */
  function LoadLongAsWritten(content: Option<Stored>): (r: Result<seq<Event>, string>)
    ensures r.Err? <==> content == Some(Scalar(true))
    ensures r.Err? ==> r.error == TypeError
    ensures r.Ok? ==> r.value == LoadShort(content)
  {
    match content
    case None => Ok([])
    case Some(Unreadable) => Ok([])
    case Some(EmptyFile) => Ok([])                  // json_decode('') is null: falsy
    case Some(Scalar(truthy)) => if truthy then Err(TypeError) else Ok([])
    case Some(EventList(events)) => Ok(events)      // [] is falsy and becomes []: the same list
  }

  /** A queue file holding the JSON text `1` makes the as-written loader throw. */
  lemma LoadLongAsWrittenThrows()
    ensures LoadLongAsWritten(Some(Scalar(true))) == Err(TypeError)
    ensures LoadShort(Some(Scalar(true))) == []
  {
  }

  /** The loader as evidently intended: whatever cannot be read as a list is empty. */
  function LoadLong(content: Option<Stored>): (q: seq<Event>)
    ensures q == LoadShort(content)
  {
    match LoadLongAsWritten(content)
    case Ok(events) => events
    case Err(_) => []
  }

  /** The corrected long-poll loader never fails, agrees with the as-written one
      whenever that one succeeds, and reads every file exactly as short polling does. */
  lemma LoadLongCorrected(content: Option<Stored>)
    ensures LoadLongAsWritten(content).Ok? ==> LoadLong(content) == LoadLongAsWritten(content).value
    ensures LoadLong(content) == LoadShort(content)
  {
  }
}
