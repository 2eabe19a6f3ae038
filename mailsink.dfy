/**
  The mail sink's per-message envelope and the two body factories it can be
  started with: an in-memory buffer that is printed when the message ends, or
  a file created under a configured directory.
 */
module Mailsink {

  import opened Wrappers
  import opened Smtpd

  newtype Byte = b: int | 0 <= b < 256

  /** The newline fmt.Println puts after what it prints. */
  const Newline: Byte := 10

  /** The reply BeginData hands to the engine when no recipient was given. */
  const NoValidRecipients: string := "554 5.5.1 Error: no valid recipients"

  /** The Go `error` values the core returns (nil is `None`). */
  datatype Error =
    | SmtpError(reply: string)  // smtpd.SMTPError: the engine sends the text to the client as is
    | IoError                   // an operation on the log file failed

  /** The body factory main selected: stdoutLogger, or fileLogger with its directory. */
  datatype Logger = StdoutLogger | FileLogger(dir: string)

  /** What an envelope's body writes into: an in-memory `buf`, or the file
      created at the path whose elements are given. */
  datatype Sink = Buffer | File(path: seq<string>)

  /** The bytes of body lines written one after another, in the order given. */
  function Concat(lines: seq<seq<Byte>>): seq<Byte>
  {
    if lines == [] then [] else lines[0] + Concat(lines[1..])
  }

  /** One more line written puts exactly its bytes after all earlier ones. */
  lemma {:induction false} ConcatAppend(lines: seq<seq<Byte>>, line: seq<Byte>)
    ensures Concat(lines + [line]) == Concat(lines) + line
  {
    if lines == [] {
      assert [] + [line] == [line];
      assert Concat([line]) == line + Concat([]);
    } else {
      assert (lines + [line])[0] == lines[0];
      assert (lines + [line])[1..] == lines[1..] + [line];
      ConcatAppend(lines[1..], line);
    }
  }

  /**
    The elements fileLogger.New passes to filepath.Join: the configured
    directory, the time stamp, "_" and the sender's address. "_" is an element
    of its own, so the file is named by the sender's address alone and sits in
    the directory dir/<timestamp>/_ rather than being named <timestamp>_<email>.
   */
  function LogPath(dir: string, timestamp: string, from: MailAddress): (p: seq<string>)
    ensures |p| == 4 && p[0] == dir && p[1] == timestamp
    ensures p[2] == "_" && p[3] == from.email
  {
    LogDir(dir, timestamp) + [from.email]
  }

  /** The directory the log file goes into: dir/<timestamp>/_. Nothing in the
      program creates it, and os.Create does not create missing parents. */
  function LogDir(dir: string, timestamp: string): seq<string>
  {
    [dir, timestamp, "_"]
  }

  /** An address filepath.Join keeps as one last element: not empty, not "."
      or "..", and without a '/'. Any other address is rewritten by Join's
      cleaning, so the file lands somewhere other than in LogDir. */
  predicate PlainElement(s: string)
  {
    s != "" && s != "." && s != ".." && '/' !in s
  }

  /** Two messages get the same log path exactly when the directory, the time
      stamp and the sender's address all agree; the hostname plays no part. */
  lemma LogPathSame(dir: string, dir': string, t: string, t': string, a: MailAddress, a': MailAddress)
    ensures LogPath(dir, t, a) == LogPath(dir', t', a') <==> dir == dir' && t == t' && a.email == a'.email
  {
  }

  /** The body a new message gets: a fresh buffer from stdoutLogger, or the
      file fileLogger.New creates at LogPath with the time given. */
  function NewBody(logger: Logger, from: MailAddress, timestamp: string): (s: Sink)
    ensures s.Buffer? <==> logger.StdoutLogger?
    ensures logger.FileLogger? ==> s.path == LogPath(logger.dir, timestamp, from)
  {
    match logger
    case StdoutLogger => Buffer
    case FileLogger(dir) => File(LogPath(dir, timestamp, from))
  }

  /** The engine's envelope for one message (the Go type `env`). */
  class Envelope {
    const from: MailAddress
    var rcpts: seq<MailAddress>
    /** The bytes written to the body so far. */
    var body: seq<Byte>
    const sink: Sink
    /** The lines written so far, in call order. */
    ghost var lines: seq<seq<Byte>>

    ghost predicate Valid()
      reads this
    {
      body == Concat(lines)
    }

    /** The envelope OnNewMail builds: the sender, no recipients, a new body. */
    constructor (from: MailAddress, sink: Sink)
      ensures Valid()
      ensures this.from == from && rcpts == [] && this.sink == sink
      ensures body == [] && lines == []
    {
      this.from := from;
      rcpts := [];
      body := [];
      this.sink := sink;
      lines := [];
    }

    /** Appends the address, duplicates and all, and never fails. */
    method AddRecipient(rcpt: MailAddress) returns (err: Option<Error>)
      requires Valid()
      modifies this
      ensures Valid()
      ensures err == None
      ensures rcpts == old(rcpts) + [rcpt]
      ensures body == old(body) && lines == old(lines)
    {
      rcpts := rcpts + [rcpt];
      err := None;
    }

    /** Rejects the DATA command exactly when no recipient was added; the
        recipients' hostnames are never looked at. Changes nothing. */
    method BeginData() returns (err: Option<Error>)
      ensures err.Some? <==> rcpts == []
      ensures err.Some? ==> err.value == SmtpError(NoValidRecipients)
    {
      if |rcpts| == 0 {
        return Some(SmtpError(NoValidRecipients));
      }
      return None;
    }

    /**
      Writes one body line, bytes unchanged. A buffer write always succeeds;
      a file write succeeds unless `ioFails`, and a failed one is taken to
      have stored nothing.
     */
    method Write(line: seq<Byte>, ioFails: bool) returns (err: Option<Error>)
      requires Valid()
      modifies this
      ensures Valid()
      ensures err.Some? <==> sink.File? && ioFails
      ensures err.Some? ==> err.value == IoError
      ensures err.None? ==> body == old(body) + line && lines == old(lines) + [line]
      ensures err.Some? ==> body == old(body) && lines == old(lines)
      ensures rcpts == old(rcpts)
    {
      if sink.File? && ioFails {
        return Some(IoError);
      }
      ConcatAppend(lines, line);
      body := body + line;
      lines := lines + [line];
      err := None;
    }

    /**
      Ends the body. A buffer is a fmt.Stringer, so its whole contents are
      printed as one line (returned here as `printed`) and its Close returns
      nil; a file prints nothing, and closing it fails when `ioFails`.
      Changes nothing.
     */
    method Close(ioFails: bool) returns (printed: Option<seq<Byte>>, err: Option<Error>)
      ensures sink.Buffer? ==> printed == Some(body + [Newline]) && err == None
      ensures sink.File? ==> printed == None
      ensures sink.File? ==> (err.Some? <==> ioFails) && (err.Some? ==> err.value == IoError)
    {
      if sink.Buffer? {
        printed := Some(body + [Newline]);
        err := None;
      } else {
        printed := None;
        err := if ioFails then Some(IoError) else None;
      }
    }
  }

  /**
    The OnNewMail callback: asks the logger for a body and wraps it in a new
    envelope. With the file logger, os.Create fails when `createFails` (any
    I/O fault other than a missing directory) and, for a sender address that
    is a plain path element, exactly when the log directory is not among
    `existingDirs` as well. The error is returned beside the envelope, as the
    Go code does. The stdout logger never fails.
   */
  method OnNewMail(logger: Logger, from: MailAddress, timestamp: string,
                   existingDirs: set<seq<string>>, createFails: bool)
    returns (e: Envelope, err: Option<Error>)
    ensures fresh(e) && e.Valid()
    ensures e.from == from && e.rcpts == [] && e.body == [] && e.lines == []
    ensures e.sink == NewBody(logger, from, timestamp)
    ensures err.Some? ==> logger.FileLogger? && err.value == IoError
    ensures logger.FileLogger? && createFails ==> err.Some?
    ensures PlainElement(from.email) ==>
              (err.Some? <==> logger.FileLogger? && (createFails || LogDir(logger.dir, timestamp) !in existingDirs))
  {
    e := new Envelope(from, NewBody(logger, from, timestamp));
    if logger.FileLogger? && (createFails || LogDir(logger.dir, timestamp) !in existingDirs) {
      err := Some(IoError);
    } else {
      err := None;
    }
  }

  /** How one message ends when the engine drives it. */
  datatype Outcome =
    | MailRefused(err: Error)                               // OnNewMail failed: the engine refuses MAIL FROM
    | DataRefused(err: Error, body: seq<Byte>, sink: Sink)  // BeginData refused DATA
    | Delivered(body: seq<Byte>, printed: Option<seq<Byte>>, closeErr: Option<Error>)

  /**
    One message as the engine drives it when no I/O operation faults:
    OnNewMail, one AddRecipient per recipient, BeginData, and, if that
    accepts, one Write per body line and Close. A refused DATA leaves the
    envelope's body empty, but with the file logger the file OnNewMail
    created (empty) stays behind at the sink's path.
   */
  method Transaction(logger: Logger, from: MailAddress, timestamp: string, existingDirs: set<seq<string>>,
                     rcpts: seq<MailAddress>, lines: seq<seq<Byte>>)
    returns (r: Outcome)
    ensures r.MailRefused? ==> logger.FileLogger? && r.err == IoError
    ensures PlainElement(from.email) ==>
              (r.MailRefused? <==> logger.FileLogger? && LogDir(logger.dir, timestamp) !in existingDirs)
    ensures r.DataRefused? <==> !r.MailRefused? && rcpts == []
    ensures r.DataRefused? ==> r.err == SmtpError(NoValidRecipients) && r.body == []
    ensures r.DataRefused? && logger.FileLogger? ==> r.sink == File(LogPath(logger.dir, timestamp, from))
    ensures r.Delivered? ==> r.body == Concat(lines) && r.closeErr == None
    ensures r.Delivered? && logger.StdoutLogger? ==> r.printed == Some(Concat(lines) + [Newline])
    ensures r.Delivered? && logger.FileLogger? ==> r.printed == None
  {
    var e, newErr := OnNewMail(logger, from, timestamp, existingDirs, false);
    if newErr.Some? {
      return MailRefused(newErr.value);
    }
    var i := 0;
    while i < |rcpts|
      invariant 0 <= i <= |rcpts|
      invariant fresh(e) && e.Valid()
      invariant e.rcpts == rcpts[..i] && e.lines == []
      invariant e.sink == NewBody(logger, from, timestamp)
    {
      var addErr := e.AddRecipient(rcpts[i]);
      assert addErr == None;
      i := i + 1;
    }
    assert rcpts[..|rcpts|] == rcpts;
    var dataErr := e.BeginData();
    if dataErr.Some? {
      return DataRefused(dataErr.value, e.body, e.sink);
    }
    var j := 0;
    while j < |lines|
      invariant 0 <= j <= |lines|
      invariant fresh(e) && e.Valid()
      invariant e.lines == lines[..j]
      invariant e.sink == NewBody(logger, from, timestamp)
    {
      assert lines[..j + 1] == lines[..j] + [lines[j]];
      var writeErr := e.Write(lines[j], false);
      assert writeErr == None;
      j := j + 1;
    }
    assert lines[..|lines|] == lines;
    var printed, closeErr := e.Close(false);
    return Delivered(e.body, printed, closeErr);
  }
}
