# mailsink: the message envelope and the log path

mailsink is a small SMTP server that logs the body of each message it accepts.
It refuses DATA when a message has no recipient. With the file logger, it also
refuses MAIL FROM when it cannot create the log file. The smtpd engine calls it back for each message.
`OnNewMail` builds an envelope (`env`) that holds the sender and a body. The
body is either an in-memory `buf`, which is printed to standard output when the
message ends, or a file that `fileLogger.New` tries to create under the `-dir`
directory. The engine then calls `AddRecipient` once per `RCPT TO`,
`BeginData` at `DATA`, `Write` once per body line and `Close` at the end.

This project models that envelope as the class `Mailsink.Envelope`. Its fields
are `rcpts` and `body` (the bytes written to the body so far), and the
constants `from`, which is set only at construction, and `sink`, which says whether the body is a buffer or a file and at which
path. A ghost field `lines` records the lines written, in call order, and the
invariant `Valid()` states that `body` is their concatenation (`Concat`).

The log file's path is modelled as the list of elements given to
`filepath.Join`. That list is `[dir, timestamp, "_", email]`. Because `"_"` is
an element of its own, the file is named by the sender's address alone and would
sit in the directory `dir/<timestamp>/_` (`LogDir`). It is not a file named
`<timestamp>_<email>`, and no `.eml` suffix or per-recipient directory exists
in this code. `os.Create` does not create missing parent directories, and
nothing in the program creates `dir/<timestamp>/_`. So, for a sender address
that `filepath.Join` keeps as one element (`PlainElement`), creating the file
fails unless that directory already exists for that exact second. The model
makes this explicit: `OnNewMail` takes the set of directories that exist, and
for such an address creation fails exactly when `LogDir` is not among them.

Modules:
- `Wrappers` (wrappers.dfy): `Option`, used for Go's "nil or a value" results.
- `Smtpd` (smtpd.dfy): `MailAddress`, the engine's address with its e-mail
  string and hostname.
- `Mailsink` (mailsink.dfy): errors, body sinks, the log path, the envelope,
  `OnNewMail`, and `Transaction`. `Transaction` is a client that drives one
  message through the callbacks in the engine's order.

Parameters stand in for the environment:
- the time stamp that `time.Now().UTC().Format(time.RFC3339)` gives is an input string;
- the directories that already exist are an input set of paths;
- whether `os.Create` (apart from a missing directory), a file write or a file close fails is an input `bool`;
- what `fmt.Println` writes is returned as a value.

`BeginData` and `Close` have no `modifies` clause, so Dafny's frame rule
guarantees that they change no field of the envelope.

## Model

| member | source | states |
|---|---|---|
| `Mailsink.Envelope.constructor` | mailsink.go:91-94 | a new envelope has the given sender, no recipients, an empty body and the given sink |
| `Mailsink.Envelope.AddRecipient` | mailsink.go:31-34 | always returns nil; `rcpts` becomes the old list with the address appended at the end, so earlier order and duplicates are kept; `body` is unchanged |
| `Mailsink.Envelope.BeginData` | mailsink.go:36-42 | returns the error `554 5.5.1 Error: no valid recipients` if and only if `rcpts` is empty, and nil otherwise, whatever the recipients' hostnames; changes no field |
| `Mailsink.Envelope.Write` | mailsink.go:44-47 | a successful write appends the line's bytes unchanged to the body and records the line, keeping `body` equal to the concatenation of all lines written; a buffer write never fails; a file write fails only on an I/O fault; `rcpts` is unchanged |
| `Mailsink.Envelope.Close` | mailsink.go:49-53 | on a buffer body, prints exactly the accumulated bytes followed by Println's newline, and returns nil because `buf.Close` (mailsink.go:21-23) always does; on a file body, prints nothing and fails only on an I/O fault; changes no field |
| `Mailsink.ConcatAppend` | mailsink.go:44-45 | writing one more line puts exactly its bytes after the bytes of all earlier lines, in call order |
| `Mailsink.LogPath` | mailsink.go:61 | the log path has exactly four elements, in order: the configured directory, the time stamp, `"_"` and the sender's e-mail address |
| `Mailsink.LogPathSame` | mailsink.go:61 | two messages get the same log path if and only if the directory, the time stamp and the sender's e-mail agree; the sender's hostname plays no part |
| `Mailsink.NewBody` | mailsink.go:60-67 | stdoutLogger yields a buffer body; fileLogger yields a file body at the log path for the sender and time stamp |
| `Mailsink.OnNewMail` | mailsink.go:89-95 | returns a fresh envelope with the given sender, no recipients, an empty body and the logger's body; the stdout logger never fails; the file logger fails on any other I/O fault, and, for a sender address that is a plain path element, fails exactly when its directory `dir/<timestamp>/_` does not exist or such a fault occurs |
| `Mailsink.Transaction` | mailsink.go:31-53 | over a full message with no I/O fault: only the file logger refuses MAIL FROM, and for a sender address that is a plain path element it does so exactly when its directory is missing; otherwise `BeginData` rejects with the fixed reply exactly when no recipient was given, and then the envelope's body has received no bytes, though with the file logger the empty file OnNewMail created stays at `LogPath`; otherwise the body holds exactly the concatenation of the lines written, in order, the buffer logger prints exactly that followed by a newline, and Close returns nil |

## Left out

- `main` (mailsink.go:71-101) is left out: flag parsing, choosing the logger from `-dir`, `ListenAndServe` and `log.Fatal` are process start-up and networking. The chosen logger is a parameter (`Logger`).
- The smtpd engine is left out: the wire protocol, connections, and what `MailAddress` holds beyond its two accessors. The engine's call order appears only in `Transaction`, as a client of the envelope.
- Real file-system effects, the clock and standard output are left out. They appear as the parameters and return values listed above.
- `filepath.Join`'s cleaning rules (dropping empty elements, resolving `..`) are left out, because they belong to the Go library. The path is kept as its list of elements.
- Mailsink.Envelope.Write: a failed file write is taken to store nothing. A partial write, where `os.File.Write` stores some bytes and then returns an error, is not modelled. `bytes.Buffer` raising a panic when it cannot grow is not modelled either.
- Mailsink.OnNewMail: when `os.Create` fails, Go puts a nil `*os.File` in the envelope and returns it with the error. The engine does not go on with that envelope. The model gives it the same file sink. The model also does not track that a successful `os.Create` truncates an existing file at the same path.
- Mailsink.OnNewMail: the exact failure condition is stated only for a sender address that is a non-empty path element other than `.` and `..`, with no `/`. `filepath.Join` cleans any other address. `""` and `"."` make the file `dir/<timestamp>/_` itself, `"a/b"` needs `dir/<timestamp>/_/a`, and `"../x"` lands in `dir/<timestamp>`. An address such as `"../../../f"` makes the file logger create or truncate a file outside `-dir`. For such addresses the model promises only that the stdout logger never fails and that an I/O fault fails the file logger.
- Mailsink.Transaction: refusal at MAIL FROM is tied to the missing directory only for a plain-element sender address, for the same reason as for `OnNewMail`.
- Call order is not enforced, because the Go code does not enforce it. `Transaction` states only the order in which the engine makes the calls. A write after `Close` is not modelled for files, where it would fail.
- Concurrency across connections is left out. Each envelope is independent.
