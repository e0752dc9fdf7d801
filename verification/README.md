# A verified model of the SFTP server

The system is an SFTP version 3 server (draft-ietf-secsh-filexfer-02) over an
abstract filesystem driver. One session reads packets from a byte stream,
decodes them, resolves paths, keeps a table of handles and answers every request
with one packet. READ and WRITE may run beside each other, in one session and
across sessions, when their byte ranges allow it; every other request waits for
everything before it in its session; replies leave in the order of the requests.

The project models that server and proves, for all inputs and all runs:

- **What it is for.** `Storing.StoresAndReads`: a client opens a file, sends any WRITEs,
  asks about the handle and sends any READs, without waiting for a reply. In every run
  of the concurrent server at the grain of bytes, each WRITE is confirmed exactly when
  it is placed, and each READ gives exactly the bytes of the file that the placed WRITEs
  make; `Storing.StoredBytes` says which bytes those are, and `Storing.Downloads` that
  READs in pieces together give the file.
- **Concurrency.** `Grain` is the concurrent server as the driver sees it: any
  number of sessions that come, send and end; READ and WRITE moving their bytes one
  at a time beside each other; a rewrite of a whole file reading before it writes;
  STAT, FSTAT, READLINK, OPENDIR and READDIR making their driver calls one at a time.
  `Pool` is the same server with requests that take effect at once.
  - `Linearization.Linearizable`: the first is the second. At every moment of every
    run in which each call of a looking request meets the files as they were at its
    first call with no WRITE half done, the files, the tables and the replies are
    those of the server that takes the requests one at a time, in the order in which
    they took effect; conflicting requests, and requests of one session around a
    barrier, stand in it as they arrived. `LinearizableAlways`: with the lock as it is
    by default, and for one session with any lock, that is every run.
  - `Torn.OrderedExactly`: every run of n sessions, for every driver and world, is that
    of some order of its requests, if and only if path calls are exclusive or n is at
    most one. `Torn.TornReaddir` and `Halfway.TornStat` are runs of any two or more
    sessions that no order explains.
  - `Tearing.EveryAnswer`: for each answer of each looking request the condition is
    exact. Whatever the driver says of paths, the answer is that of the request's
    first moment, if and only if each of its calls met the files of that moment; and
    it is that of some one moment, if and only if all its calls met the same files.
  - `Runs.StreamEquivalence` and `Linearization.Streams`: if no barrier that asks about
    files starts beside another session's pending READ or WRITE, then in the order in
    which requests *arrived* the filesystem and the tables are the serial server's, and
    every client's stream is, if and only if no READ and WRITE overtook one another
    across the end of their file. `Arrival.ArrivalExactly`: without that proviso it is
    so for every driver, world and run, if and only if there is at most one session.
  - `Schedules.ClientOrder`: said without schedules. Every run that takes a client's
    packets answers them serially, if and only if no two of them cross: a READ and
    a WRITE between the same two barriers, neither waiting for the other, that meet
    across the end of their file. `Realizing.ClientBytes` is the same at the grain of
    bytes.
  - `Crossing.CrossingShows`: every pair of that kind can be made to show.
  - `Finishing.Finishes`: no run is ever stuck; from each of its states what was taken
    can be finished and every reply sent.

  The way from `Grain` to `Pool` is `Bytewise` (parts of READs and WRITEs that do not
  conflict pass each other), `Views` (requests that look), `Refinement` and
  `Simulation` (one move at a time), `Atomicity` (runs), `Stillness` and `Tearing`;
  `Realizing` is the way back. `DriverUse` and `Contract` prove what the driver may rely
  on during every run, and `PoolSafety` carries the rules for single packets to every
  state of every run.
- **Driver files.** `Lifecycle` follows every file the driver opens through any
  sequence of requests with any failures. None is closed twice, ever. Each is
  closed by the end of the session, if and only if no packet that was to be given a
  handle came with a token that already named one with a file.
- **File contents.** `Content`, `DataOps` and `Copying` give READ, WRITE and
  copy-data their meaning on byte strings, with exact conditions for commuting.
- **The wire.** `Codec`, `Messages`, `Wire` and `Packets` prove encoders and
  decoders inverse in both directions, for whole messages and whole streams. `Layout`
  has the draft's own table of type numbers and fields: frames are written, and payloads
  accepted, exactly as it says.
- **Paths.** `Paths` proves the algebra of the path resolver, with its length
  boundary.
- **Requests.** `Safety`, `Opening`, `Listing` and `Independence` state what every
  packet may do: one reply with the right id, canonical paths only, nothing on a
  read-only export, what OPEN creates and gives, what READDIR lists while the
  directory changes, which requests depend on file contents at all.
- **Answers.** For every request, from its packet to the driver's calls and every field
  of the reply, with the draft's numbers: `Transfers` (READ, WRITE, CLOSE), `Changing`
  (RENAME, REMOVE, RMDIR, MKDIR, SYMLINK, SETSTAT, FSETSTAT), `Showing` (STAT, LSTAT,
  FSTAT, READDIR, READLINK, REALPATH), `Granting` (OPEN, OPENDIR), `Extensions` (limits,
  copy-data, and packets that are no request), `Greeting` (INIT) and `Errors` (which
  status a driver's error gets).

`Server` holds each request as a function of the shared world, the session's
table and the packet. Code that works by updating things is also modelled that
way: the encoder and decoder (`Wire.Encoder`, `Wire.Decoder`), the packet reader
and writer over reused buffers (`Packets`), the in-place splice
(`Content.WriteSplice`), the path resolver's loop (`Paths.CleanPath`), the handle
table and the session (`Sessions.Handles`, `Sessions.Session`). Those methods are
proved equal to the functions, and the lemmas are about the functions.

## Assumptions

- A driver is a record of functions from the filesystem, the arguments and the
  number of the request to an answer, so any call may succeed or fail at any
  time. What the driver's other state is does not matter, because its metadata
  calls are arbitrary functions of it.
- Files opened by the driver see the current content of their path. READ and WRITE
  on a path that exists succeed; on one that does not they are answered with "no
  such file". A file that is removed or renamed while open is seen under its path.
- The scheduler (the `inflight` module) is not part of the repository. Its rules
  as documented in concurrent.go:36-64 and README.md:184-198 are the guards of
  `Pool.Legal`: a job enters the driver when every earlier job whose range
  conflicts has left it and the lock is free for it; a barrier starts when every
  earlier reply of its session has been sent; replies of a session are sent in
  order; a session ends when all its requests are over, even if some replies could
  not be sent, and takes nothing after that. Slots, budgets and timers are not
  modelled. A range without bytes overlaps nothing, and a whole-file range overlaps
  everything on its path.
- In `Grain` one step is one byte, one driver call of a request that looks, or one
  step of the server that touches no file. A barrier under the exclusive lock, an
  early reply, and the closes at the end of a session are one step each. In `Pool`
  every request takes effect in one step.
- A READDIR makes one step per entry, also for an entry whose name cannot be joined
  and for which the program makes no call.
- Range copying (the `hostcopy` module) moves what the source has, or fails: before
  the destination is grown, or after it is grown and some of the bytes are copied.
- An error is the first of the known errors it wraps and a text. Lower case is the
  program's as far as the fragments looked for can tell: they are ASCII, and a character
  outside ASCII stays outside it but for the two that `Server.Lowered` names.
- Handle tokens are whatever the random source yields for the request; nothing
  assumes them fresh unless a statement says so.
- The table holds handles as values; the program holds references that only the
  session itself follows. Closing all handles at the end takes them in any order.
- Integers are 64-bit where the program's are: offsets and lengths are bounded by
  their wire types, and the sums of copy-data wrap as the program's do.

## Where the code falls short of its own words

Each is stated with the exact condition and, in `Instances`, `Torn`, `Halfway` or
`Arrival`, shown at an input.

- README.md:187-190 says overlapping ranges keep READ and WRITE in order. A READ
  past the end of the file has no range in common with a WRITE above it, yet its
  answer depends on that WRITE: `Content.ReadCommutes`, `Schedules.ClientOrder`,
  `Instances.CrossedStream`.
- concurrent.go:43-49 says a barrier runs alone, which holds within its session. With
  PathOpsConcurrent (server.go:137-142) another session's WRITE runs beside it. A
  READDIR makes up to 64 Stat calls for one reply, and the WRITE can fall between two
  of them, so that one reply shows one file in two states; and a single call, as of
  STAT, can fall between two bytes of the WRITE, and show a file that no order of the
  requests ever makes: `Torn.OrderedExactly`, `Tearing.EveryAnswer`,
  `Tearing.NeverDisturbed`, `Torn.TornReaddir`, `Halfway.TornStat`.
- README.md:191-194 says a barrier waits for all requests in flight. It waits for those
  of its own session (concurrent.go:43-45): another session's WRITE that came first and
  still waits is overtaken, with any lock: `Arrival.ArrivalExactly`,
  `Arrival.LateWrite`.
- README.md:195-197 says Close holds the filesystem lock exclusively. The closes made
  by requests do. The closes at the end of a session (server.go:217,
  handle.go:147-158) take no lock, so they can run beside another session's READ or
  WRITE, never on a file that is in use: `DriverUse.ClosesExactly`,
  `DriverUse.ClosesLocked`, `DriverUse.DriverSafety`, `Instances.CloseBesideJob`.
- session.go:219 passes the path of a SETSTAT to the driver unresolved:
  `Safety.SetstatVerbatim`, `Safety.RunCanonical`, `Safety.SetstatUnresolved`.
- A driver whose Stat returns neither a result nor an error makes OPEN answer
  STATUS OK without a handle (ops.go:425, ops.go:438): `Opening.OpenWithoutHandle`,
  `Instances.SilentStat`.
- A relative path of exactly 4096 bytes resolves to 4097 bytes, which the resolver
  then refuses, so FSTAT fails on a handle that OPEN gave: `Paths.CleanIdempotent`,
  `Safety.FstatIsStat`, `Instances.LongRelativePath`, `Instances.LongFstat`.
- Joining a name under the root does not check the length (path.go:84-86):
  `Paths.JoinNameCanonical`, `Instances.LongNameUnderRoot`.
- copy-data admits an offset and a length of 2^62 each, whose sum overflows, and then
  grows a shorter destination to 2^62 bytes past its offset with nothing to copy:
  `Copying.CopyCountExact`, `Copying.CopyIsSplice`, `Instances.CopyOverflow`.
- A token that repeats replaces a live handle and its file is never closed:
  `Lifecycle.OverwritesExactly`, `Lifecycle.Conservation`, `Instances.TokenTwice`.
- The advertised write length fits the packet limit only if that limit is at least
  54 bytes: `Safety.AdvertisedLimits`, `Instances.SmallLimit`.

## Model

| member | source | states |
|---|---|---|
| `Storing.StoresAndReads` | session.go:43-86 | one client, any driver, any WRITEs and then any READs on a file it opened, sent without waiting: in every run at the grain of bytes each WRITE is confirmed exactly when it is placed, each READ gives exactly the bytes of the file the placed WRITEs make, and some run takes the packets |
| `Storing.StoredBytes` | ops.go:640-697 | that file, byte by byte: the last placed WRITE that covers it, else what it was, else zero; in place every WRITE is placed |
| `Storing.Downloads` | ops.go:528-611 | READs in pieces one can carry, each from where the one before ends: the data of the replies together is the file as far as they reach |
| `Storing.NoneCrosses` | concurrent.go:36-64 | no two of those packets cross, because the question between them is a barrier |
| `Transfers.ReadAnswered` | ops.go:528-611 | READ: DATA with exactly the file's bytes from the offset on, as many as asked for, carried and there; end of file exactly at or past the end; the refusals; nothing changes |
| `Transfers.WriteAnswered` | ops.go:614-697 | WRITE: success exactly when the file holds its bytes afterwards, the rest as it was and gaps zero; failure with the files untouched exactly when a rewrite would grow by more than 8 MiB or past 1 GiB; the refusals |
| `Transfers.CloseAnswered` | ops.go:505-524 | CLOSE: Sync and then Close of a file written in place, Close alone of another, always both made; success if and only if all succeed, else the first failure; the handle is gone either way |
| `Changing.RenameAnswered` | ops.go:315-333 | RENAME: one Rename from the first resolved path to the second, its filesystem and its outcome; otherwise no call and nothing changed |
| `Changing.RemoveAnswered` | ops.go:288-308 | REMOVE: one DeleteFile of the resolved path, or a refusal |
| `Changing.RmdirAnswered` | ops.go:288-308 | RMDIR: one DeleteDir of the resolved path, or a refusal |
| `Changing.SymlinkAnswered` | ops.go:365-383 | SYMLINK: one Symlink at the resolved second path to the first as it stands, or a refusal |
| `Changing.MkdirAnswered` | ops.go:264-282 | MKDIR: one MkDir of the resolved path with the client's permission bits or 0755, or a refusal |
| `Changing.SetstatAnswered` | ops.go:91-135 | SETSTAT: exactly the announced attributes the driver can set, size, permissions, owner and times, each call on what the one before left, up to the first failure, which is answered |
| `Changing.FsetstatAnswered` | session.go:221-230 | FSETSTAT: the same on the path of its handle |
| `Showing.StatAnswered` | ops.go:51-70 | STAT and LSTAT: one Stat of the resolved path, shown in every field or answered with its error |
| `Showing.FstatAnswered` | ops.go:73-79 | FSTAT: the same on the path of its handle |
| `Showing.ModeShown` | attr.go:36-54 | every permission bit is the driver's, with the three write bits clear on a read-only export and unchanged on a writable one, and the regular type added exactly when there is none |
| `Showing.ReaddirAnswered` | ops.go:185-238 | READDIR: in order and at most 64 at a time exactly the entries passed that join and are found, each with the attributes of the driver's answer; end of file exactly when none is left; one Stat for each that joins |
| `Showing.RealpathAnswered` | ops.go:252-261 | REALPATH: the resolved path, twice, without a driver call; refused only with a zero byte or over 4096 bytes |
| `Showing.ReadlinkAnswered` | ops.go:341-356 | READLINK: the driver's target as it stands, or its error |
| `Granting.OpenSays` | ops.go:395-497 | OPEN without a handle: each refusal with its status, before anything is changed; the file created or emptied with the client's permission bits or 0644 and nothing else; each later failure with its status |
| `Granting.OpendirSays` | ops.go:147-180 | OPENDIR: the listing of a directory under a new token, or each refusal with its status, and the calls made |
| `Granting.FlagsMean` | ops.go:390-392 | the open flags, the creation permissions, the directory type and the bound of 1024 handles in numbers |
| `Extensions.LimitsAnswered` | limits.go:38-59 | limits@openssh.com: the longest packet, READ and WRITE and 1024 handles, in that order, eight bytes each |
| `Extensions.CopyAnswered` | copydata.go:44-100 | copy-data: each refusal with its status and no call; otherwise one copy, only the second file changed, success exactly when all was moved |
| `Extensions.CopyMalformed` | copydata.go:44-56 | data that is no copy-data request is a bad message and does nothing |
| `Extensions.ExtensionRefused` | session.go:288-302 | any other extension is unsupported |
| `Extensions.MalformedAnswered` | session.go:313-315 | a request that no message within the limits encodes to is a bad message under its own id, and does nothing |
| `Extensions.UnknownAnswered` | session.go:304-309 | a packet of any other number is unsupported, under its own id |
| `Greeting.GreetExactly` | session.go:121-153 | what a session comes to, by how its stream begins: a version from 3 on, an older one, another packet, a bad INIT or none, both ways |
| `Greeting.HelloIs` | copydata.go:27-33 | the answer to INIT is version 3 with limits@openssh.com, and copy-data exactly when files can be copied |
| `Errors.ErrorStatus` | errors.go:55-76 | the status of every error: that of the known error it wraps, else of the first of fourteen fragments its text contains in any case, else the fallback; never success |
| `Errors.OccursLowered` | errors.go:69-74 | searching the lowered text finds a fragment exactly when the text contains it in some case |
| `Errors.ErrorText` | errors.go:85-95 | the text of an error goes out whole up to 512 bytes and is cut there with an ellipsis |
| `Layout.FrameLaid` | wire/messages.go:44-60 | every message's frame is its length, its type number and its fields as the draft lists them, big-endian |
| `Layout.Accepted` | wire/messages.go:66-88 | a payload is accepted exactly when it is laid out as a message of its type within the limits, STATUS aside |
| `Layout.LimitsMean` | wire/codec.go:29-36 | the limits in numbers: texts of 256 KiB, lists of 64 pairs, 65536 names |
| `Torn.OrderedExactly` | server.go:65-73 | every run of n sessions at the grain of bytes and driver calls, for every driver and world, is that of some order of its requests, if and only if path calls are exclusive or n is at most one |
| `Linearization.Linearizable` | concurrent.go:36-64 | every run at that grain, of any number of sessions, in which each call of a looking request meets the files as they were at its first call with no WRITE half done: at each moment the one-at-a-time server, taking the requests in the order of their effects so far, gives every reply given, the files once WRITEs under way are done, and the tables; each request is in that order exactly once it has taken effect, conflicting ones and those around a barrier as they arrived; the order only grows |
| `Linearization.LinearizableAlways` | server.go:65-73 | with path calls exclusive, or with one session, that is every run |
| `Linearization.OneClient` | concurrent.go:36-64 | one session whose packets do not cross is sent exactly the serial replies, however the bytes of its requests interleave |
| `Realizing.ClientBytes` | concurrent.go:36-64 | one session, any packets, at the grain of bytes: all runs that take them send the serial replies if and only if no two of them cross; and some run takes them |
| `Realizing.Realized` | concurrent.go:36-64 | every run of requests that take effect at once is an undisturbed run at the grain of bytes, ending in the same state |
| `Linearization.Streams` | session.go:43-86 | at the grain of bytes, for any sessions: `Runs.StreamEquivalence` for every undisturbed run |
| `Linearization.RunStreams` | concurrent.go:51-60 | in every run at that grain, disturbed or not, what each client was sent is the replies to its first requests in the order it asked |
| `Tearing.EveryAnswer` | ops.go:51-238 | every answer of STAT, LSTAT, FSTAT, READLINK, OPENDIR and READDIR in every run: both of the next two |
| `Stillness.SureIffStill` | ops.go:51-238 | the answer of a looking request made of single calls is, for everything the driver may say of paths on the way it went, that of its first moment, if and only if each call met the files of that moment, WRITEs then under way completed |
| `Stillness.OneMomentIffSawOne` | ops.go:51-238 | it is that of some one moment, if and only if all its calls met the same files |
| `Tearing.NeverDisturbed` | server.go:65-73 | if path calls are exclusive, or there is one session, every call of a looking request meets the files of its first moment, with no WRITE half done |
| `Tearing.AtomicWhenUndisturbed` | concurrent.go:36-64 | an undisturbed run is a run of requests that take effect at once, with the same packets, replies and ends, and the same files and tables but for what is under way |
| `Tearing.AtomicUnderItsAnswers` | ops.go:185-238 | every run is one under a driver that differs only in telling each looking request at its first call what it was told over all of them |
| `Torn.TornReaddir` | ops.go:185-238 | for any two or more sessions, a run in which one READDIR reply gives one file two sizes, and no order of the requests gives that reply |
| `Halfway.TornStat` | ops.go:51-70 | for any two or more sessions, a run in which a STAT with its one call tells of a file with one byte of a WRITE of two, and no order of the requests gives that reply |
| `Contract.DriverBytes` | server.go:54-73 | in every state of every run at the grain of bytes: jobs in the driver do not conflict and share the lock, none uses a closed file, no file is closed twice, and a looking request has only such beside it as share the lock with it, so with path calls exclusive nobody |
| `Atomicity.Simulated` | concurrent.go:36-64 | for any driver that explains the answers given, every run is a legal run of requests that take effect at once, WRITEs with their first byte, READs and rewrites with their last, looking requests with their first call |
| `Atomicity.ServeSame` | ops.go:185-238 | a request is served alike under drivers that tell it the same about paths |
| `Refinement.RelTouch` | ops.go:545-611 | one byte of a READ or WRITE beside any others the range rule and the lock let in is nothing, or the whole request, to the server whose requests take effect at once |
| `Refinement.EndsWhole` | ops.go:641-655 | a READ, a rewrite or a one-byte WRITE that ends finds what it would find with all WRITEs under way completed, and leaves what it would leave |
| `Refinement.WriteGoesOn` | ops.go:641-650 | a WRITE in place that has begun leaves the files, completed, as if it were done |
| `Views.LookIsServe` | ops.go:185-238 | a looking request made of single calls answers, and leaves its table, as if served at once by any driver that then says what it was told |
| `Views.PageReaches` | ops.go:195-205 | batch by batch, one READDIR ends where the entries end or at the first batch with something to show |
| `Simulation.RelAlone` | session.go:79-83 | a barrier beside WRITEs half done is served as with them done: it makes no driver call, or finds nobody in the driver |
| `Simulation.RelBegin` | server.go:70-73 | a looking request that begins may be answered then, and leaves the world alone |
| `Finishing.Finishes` | concurrent.go:36-64 | from any state of any run at the grain of bytes, for any number of sessions, some continuation with no new packet finishes every request and sends every reply that has a session to go to |
| `Progress.Finishes` | concurrent.go:43-60 | the same when requests take effect at once |
| `Linearity.TurnByTurn` | concurrent.go:36-64 | every run of requests that take effect at once is the one-at-a-time server's run in the order of effects, which respects conflicts and barriers and only grows |
| `Linearity.SteadyStep` | concurrent.go:43-49 | every step keeps: a job that is not over would be prepared now as it was when it arrived |
| `Schedules.ClientOrder` | concurrent.go:36-64 | one session, any packets: all runs that take them send the serial replies if and only if no two of them cross; and some run takes them |
| `Schedules.CrossedRun` | ops.go:543-556 | for every crossing pair, anywhere in a session, a run that takes all the packets and swaps the pair |
| `Client.UncrossedIsQuiet` | ops.go:543-556 | if no two packets of a session cross, every run that takes them is quiet |
| `Client.RunTracks` | concurrent.go:93-109 | in every state of every run of one session each entry was prepared as the serial server prepares it, and a pending one will find the serial files with only later requests added |
| `Client.QuietlyAt` | ops.go:543-556 | an overtaking is quiet exactly when every pending request overtaken is settled with it on the files it will find |
| `Arrival.ArrivalExactly` | concurrent.go:36-64 | every run of n sessions with every reply sent, for every driver and world, ends in the serial state in arrival order and gives every client its part of the serial replies exactly when quiet, if and only if n is at most one |
| `Arrival.LateWrite` | concurrent.go:43-49 | a quiet run of any two or more sessions in which a STAT overtakes another session's waiting WRITE, so that one stream is not the serial one |
| `Runs.StreamEquivalence` | session.go:43-86 | for any number of sessions and any interleaving the rules allow, once every reply is sent the filesystem and the tables are those of the server that takes the packets one at a time as they arrived, and every client's stream is exactly its part of the serial replies if and only if the run was quiet at the end of files |
| `Runs.SerialEquivalence` | concurrent.go:36-64 | the same before anything is sent: state always serial, replies serial if and only if quiet |
| `Runs.OneSessionSerial` | session.go:75-84 | one session needs no further condition: every interleaving ends in the serial state, and answers serially if and only if quiet |
| `Runs.OneSessionIsClear` | concurrent.go:43-49 | in one session every barrier finds nothing pending |
| `Runs.RunFaithful` | concurrent.go:36-64 | in every state of every run, draining the pending requests in arrival order yields the serial filesystem, and along a quiet run the serial replies |
| `Runs.UnquietRun` | ops.go:543-556 | a run with one request out of turn across the end of a file has a request that is, or will be, answered other than serially |
| `Runs.RunInOrder` | concurrent.go:51-60 | in every state what a session was sent is a prefix of its replies in arrival order |
| `Runs.SettledRunIsQuiet` | ops.go:543-556 | a run of any sessions is quiet if no request overtakes one it meets across the end of a file as that is at the time |
| `Runs.ProjectionsDetermine` | concurrent.go:51-60 | the streams of all sessions determine every reply |
| `Crossing.CrossingShows` | ops.go:543-556 | for every file open in place, every READ and every WRITE with no byte in common that meet across its end, a run takes OPEN, READ and WRITE and sends other replies than the serial server |
| `Crossing.ReadPrepared` | ops.go:528-556 | a READ packet becomes a job exactly when its handle is an open file and it asks for something, on the bytes asked for up to the read length, under the lock its handle calls for; otherwise it is answered at once |
| `Crossing.WritePrepared` | ops.go:614-656 | a WRITE packet becomes a job exactly when export and handle may be written and the offset held: positional and shared if the file writes in place, whole-file and exclusive if not; otherwise it is answered at once |
| `Pool.SoundStep` | concurrent.go:36-41 | every step keeps: a job in the driver has no unfinished conflicting job before it, and nothing is sent before it is ready |
| `Pool.FaithfulStep` | concurrent.go:36-64 | every step keeps the drained state serial, and a quiet one the drained replies |
| `Pool.FaithfulAlone` | session.go:79-83 | a barrier acts as the serial server does at that point, if it asks nothing about files or finds nothing pending |
| `Pool.FaithfulArrive` | session.go:77-78 | a READ or WRITE taken now answers as if run after everything before it |
| `Pool.FaithfulEnd` | server.go:214-218 | a session that ends leaves what is pending and owed elsewhere as it was |
| `Independence.ServeBlind` | ops.go:505-524 | a packet that asks the driver for nothing but Sync and Close is served alike whatever the files hold, and leaves them alone |
| `Reordering.EarlyFiles` | ops.go:635-655 | running a request before pending ones it does not conflict with never changes the final files |
| `Reordering.EarlyReplies` | ops.go:543-556 | a quiet overtaking changes no reply |
| `Reordering.SettledIsQuiet` | ops.go:543-556 | an overtaking is quiet if no pair meets across the end of its file as it is now |
| `Reordering.UnquietShows` | ops.go:543-556 | an overtaking that is not quiet makes a READ come back short or long |
| `Reordering.ShowsDooms` | ops.go:543-556 | that READ is then past saving |
| `Reordering.DoomStays` | ops.go:635-655 | READs and WRITEs only let files grow, so it stays so |
| `Reordering.PendingReadLen` | ops.go:601-611 | a pending READ will return at least as many bytes as it would now |
| `DriverUse.DriverSafety` | ops.go:545-556 | in every state of every run, whatever tokens are given out and whichever sessions have ended: jobs in the driver never conflict and share the lock, no file is closed twice, none in use is closed, an idle session has none in use; and the ledger balances if and only if no token was stored over a live file |
| `DriverUse.LocksStep` | ops.go:641-655 | every step keeps: two jobs in the driver have no conflicting range and both hold a shareable lock |
| `DriverUse.OwnedStep` | concurrent.go:43-49 | every step keeps: a job not yet answered uses a file its own session's table holds |
| `DriverUse.SaneStep` | server.go:214-218 | every step, a session's end included, keeps: no file closed twice, a file behind a handle open and behind no other |
| `DriverUse.ClosesExactly` | server.go:65-68 | while a job is in the driver, a session can have a file closed if and only if all its requests are over, it has not ended, and it holds one |
| `DriverUse.ClosesLocked` | ops.go:505-524 | a file closed while a job is in the driver is closed by the end of a session, never by a request |
| `DriverUse.ClosesExclusively` | ops.go:457-524 | a packet that makes the driver close a file is of a type that takes the lock exclusively |
| `DriverUse.EndsUnlocked` | handle.go:147-158 | a session whose requests are over can end whatever is in the driver |
| `DriverUse.LifeStep` | ops.go:505-524 | every step that stores no token over a live file keeps the ledger of driver files balanced |
| `Lifecycle.Conservation` | server.go:214-218 | over any packets with any failures, then closeAll: no file is closed twice, and every file the driver opened is closed if and only if no packet that was to be given a handle came with a token naming a handle with a file; the table never holds more than 1024 handles |
| `Lifecycle.OverwritesExactly` | handle.go:108-116 | a packet is stored over a file exactly when everything asked before a token is made says yes and the token names a handle with a file |
| `Lifecycle.ServeAccounted` | ops.go:457-497 | one packet opens a file into a free token, opens and closes one, closes one, replaces one, or does nothing to files; it replaces one only if its token names one |
| `Lifecycle.OpenAccounted` | ops.go:395-451 | the same for OPEN, with every failure path of the driver and of the random source |
| `Lifecycle.CloseAccounted` | ops.go:505-524 | CLOSE frees its token and no other, and closes the handle's file, if it has one, exactly once, whether or not Sync or Close fail |
| `Lifecycle.OpendirGives` | ops.go:147-180 | OPENDIR stores a snapshot of the listing exactly when path, room, type and listing allow and a token can be made, and otherwise nothing |
| `Lifecycle.SaneMoves` | handle.go:108-139 | whatever a request does to driver files, none is closed twice and a file behind a handle is open and behind no other |
| `Lifecycle.LifeMoves` | handle.go:108-139 | every move but a replacement keeps the ledger balanced: closed once or owned by exactly one handle |
| `Lifecycle.LifeEnds` | handle.go:147-158 | closeAll, in any order, keeps the ledger |
| `Lifecycle.ReplaceLeaks` | handle.go:108-116 | a token stored over a live file leaves that file open and out of reach |
| `Lifecycle.LeakStays` | handle.go:108-139 | nothing later closes such a file or finds an owner for it |
| `Lifecycle.RunBelow` | handle.go:108-122 | along every run no file is behind two tokens and the table stays within its bound |
| `Lifecycle.HandlesKept` | session.go:181-310 | requests other than OPEN, OPENDIR, READDIR and CLOSE leave the table and the driver's files alone |
| `Sessions.Session.Run` | server.go:205-219 | a session over byte streams: it ends for an old version if and only if the stream begins with the INIT of a version below 3, and for no INIT if it begins with another packet, with nothing written; if it begins with the INIT of a version from 3 on, VERSION 3 with the extensions offered, and the frames of the serial replies to the packets in the stream, up to one too large to frame; then every file still open is closed, all once if and only if no token was stored over a live one |
| `Sessions.Session.Negotiate` | session.go:121-153 | by how the stream begins: the INIT of a version from 3 on is answered with VERSION 3, limits@openssh.com, and copy-data exactly when the driver opens files and the export is writable; an older version, another packet, a bad INIT or no packet ends the session unanswered, each with its own reason |
| `Sessions.Session.Loop` | session.go:52-85 | reading through one recycled buffer, answering packet by packet and framing each reply yields the serial server's world, table, replies and output stream |
| `Sessions.Session.Answer` | concurrent.go:93-109 | a job, an immediate reply or a barrier, as the Server function says, with the same driver calls in the same order |
| `Sessions.Session.Dispatch` | session.go:181-310 | decoding with the cursor, refusing and performing a barrier request agrees with the Server function |
| `Sessions.ReadBarrier` | session.go:181-310 | each barrier's payload is taken off by the cursor decoder of its type, with the function's result or error |
| `Sessions.Session.Prepare` | concurrent.go:93-109 | READ and WRITE decoded with the cursor and checked become the job or the early reply of the Server function |
| `Sessions.Session.Perform` | session.go:181-310 | each decoded request updates the session in place as the Server function says |
| `Sessions.Session.OpOpen` | ops.go:395-451 | the branches of opOpen, run in place, give the function's world, table, reply and driver calls |
| `Sessions.Session.FinishOpen` | ops.go:457-497 | the same for finishOpen, including giving the file back when no token can be made |
| `Sessions.Session.OpClose` | ops.go:505-524 | the same for opClose, including a Sync that fails |
| `Sessions.Session.OpOpendir` | ops.go:147-180 | the same for opOpendir |
| `Sessions.Session.OpReaddir` | ops.go:185-206 | the batch loop advances the handle's position and builds the page the function describes |
| `Sessions.Session.ReaddirBatch` | ops.go:210-238 | the appending loop lists exactly the entries that join and stat, with those stat calls |
| `Sessions.Handles.Add` | handle.go:108-116 | stores under the token, or nothing when the random source fails |
| `Sessions.Handles.IsFull` | handle.go:122 | full at 1024 handles |
| `Sessions.Handles.Get` | handle.go:126-129 | a hit or a miss |
| `Sessions.Handles.Remove` | handle.go:133-139 | returns what the token named and drops it |
| `Sessions.Handles.CloseAll` | handle.go:147-158 | closes exactly the files still held, each once if no two tokens share one, does not stop at a failure, reports the first, and leaves the table empty |
| `Opening.OpenCreates` | ops.go:425-450 | the empty file is written exactly when the request is admitted and the flags ask for it, and nothing else is changed |
| `Opening.OpenGives` | ops.go:395-497 | OPEN gives a handle if and only if path, export, room, type, flags, creation, the driver's open and a token allow; the handle names the resolved path, has the driver's file unless that cannot write and should, writes only if asked to, and in place exactly when it has a file; otherwise the table is unchanged |
| `Opening.OpenWithoutHandle` | ops.go:415-440 | OPEN is answered OK exactly when Stat answers neither yes nor no for a file not to be created |
| `Listing.ReaddirRun` | ops.go:185-238 | over any number of READDIRs, with any change of the filesystem and any answers between them, the names received are exactly the entries that were usable when passed, in order and once; every NAME has 1 to 64; end of file comes only at exhaustion, stays, and has come after one request more than there are entries |
| `Listing.OneReaddir` | ops.go:185-206 | one READDIR sends the entries usable now up to its new position, or end of file exactly when none is left |
| `Directory.PageSteps` | ops.go:192-205 | the skipping loop makes progress, sends at most a batch, and ends exactly when no usable entry is left |
| `Directory.CollectMember` | ops.go:210-238 | a listing holds the usable entries and no others |
| `Content.SplicesCommute` | ops.go:678-692 | two writes commute if and only if they have no byte in common or agree where they have |
| `Content.ReadCommutes` | ops.go:601-611 | a non-empty READ and a WRITE with no byte in common commute if and only if the WRITE ends below the READ, does not move the end of the file, or the file already holds the READ |
| `Content.ReadAcrossEndOfFile` | ops.go:601-611 | a READ and a disjoint WRITE whose order shows |
| `Content.LastWriterWins` | ops.go:673-697 | after any writes each byte is the last covering write's, else the file's, else zero, and the length is what they reach |
| `Content.FallbackLastWriterWins` | ops.go:673-697 | after any writes through the whole-file fallback the file is what positional writes of the accepted ones give |
| `Content.WriteSplice` | ops.go:673-711 | the in-place splice equals the mathematical one, refuses exactly the writes outside its bounds, and grows a buffer by at most 8 MiB and to at most 1 GiB |
| `Content.ReadPathsAgree` | ops.go:565-611 | reading an open file and reading the whole file by path answer alike |
| `DataOps.Commute` | ops.go:543-556 | two requests that do not conflict and do not meet across the end of a file run in either order with the same files and answers |
| `DataOps.WriteBesideRead` | ops.go:635-655 | a WRITE that does not conflict with a READ changes its answer exactly when it moves an end of file the READ reaches past |
| `DataOps.WritesCommute` | ops.go:635-655 | WRITEs that do not conflict commute, whole-file fallbacks included |
| `Copying.CopyIsSplice` | copydata.go:44-100 | every copy-data packet answered with success has two open handles on different files, the second writing in place, and is one positional write of the available source bytes that changes nothing else, if and only if offset and length are not both 2^62 on a destination that ends before offset and length would; no sum overflows below 2^62 and 2^63 |
| `Copying.CopyCountExact` | copydata.go:82-85 | the 64-bit clamping is right for every admitted offset and length except both at 2^62 |
| `Copying.GrowThenWrite` | copydata.go:88-98 | truncating to the final length first does not change the outcome |
| `Messages.DecodeEncode` | wire/messages.go:53-736 | every message within the limits decodes from its encoding to itself, unflagged attributes zeroed, with nothing left |
| `Messages.EncodeDecode` | wire/messages.go:53-736 | every payload that decodes, STATUS aside, is exactly the encoding of what it decoded to |
| `Messages.StatusForms` | wire/messages.go:511-549 | STATUS decodes exactly its complete form and the two shorter ones |
| `Messages.TakePutItems` | wire/messages.go:633-679 | counted NAME lists survive the round trip with anything after them |
| `Messages.PutTakeItems` | wire/messages.go:650-679 | a NAME list that decodes is its own encoding |
| `Messages.TakePutAllPairs` | wire/messages.go:53-88 | uncounted INIT and VERSION extension lists survive the round trip |
| `Codec.TakePutAttrs` | wire/attrs.go:55-78 | ATTRS with any flags word, followed by any bytes, decodes to itself with unflagged fields zeroed and leaves exactly those bytes |
| `Codec.PutTakeAttrs` | wire/attrs.go:90-144 | a decoded ATTRS re-encodes to exactly the bytes consumed |
| `Codec.RoundTrips` | wire/codec.go:76-90 | every primitive decodes its own encoding and leaves what follows |
| `Codec.Inverses` | wire/codec.go:142-188 | every primitive that decodes re-encodes to the bytes consumed |
| `Wire.MessagesArrive` | wire/messages.go:32-36 | messages sent one after another over a stream arrive as the same messages in order, and the stream then ends cleanly |
| `Wire.Send` | wire/messages.go:32-36 | appends exactly the message's frame, or nothing when it is too large |
| `Wire.Encoder.EncodePayload` | wire/messages.go:53-724 | appends exactly the message's payload to the buffer |
| `Wire.Encoder.Attrs` | wire/attrs.go:55-78 | appends exactly the ATTRS structure |
| `Wire.Encoder.Blob` | wire/codec.go:76-79 | appends a length and the bytes |
| `Wire.Decoder.Blob` | wire/codec.go:173-188 | takes a string off the cursor as the decoding function does, with its limits and errors |
| `Wire.Decoder.Uint32` | wire/codec.go:142-149 | takes four bytes, or fails and leaves the cursor |
| `Wire.Decoder.Uint64` | wire/codec.go:152-159 | takes eight bytes, or fails and leaves the cursor |
| `Wire.Decoder.End` | wire/codec.go:124-129 | bytes left over are an error |
| `Wire.Decoder.Attrs` | wire/attrs.go:90-144 | the cursor version of ATTRS decoding equals the function |
| `Wire.ReadInit` | wire/messages.go:66-88 | the accumulating loop equals the function |
| `Wire.ReadPath` | wire/messages.go:141-152 | the cursor decoder equals the function |
| `Wire.ReadHandle` | wire/messages.go:172-183 | the cursor decoder equals the function |
| `Wire.ReadOpen` | wire/messages.go:205-222 | the cursor decoder equals the function |
| `Wire.ReadRead` | wire/messages.go:249-266 | the cursor decoder equals the function |
| `Wire.ReadWrite` | wire/messages.go:292-309 | the cursor decoder equals the function |
| `Wire.ReadSetstat` | wire/messages.go:331-345 | the cursor decoder equals the function |
| `Wire.ReadFsetstat` | wire/messages.go:365-379 | the cursor decoder equals the function |
| `Wire.ReadRename` | wire/messages.go:398-412 | the cursor decoder equals the function |
| `Wire.ReadSymlink` | wire/messages.go:440-454 | the cursor decoder equals the function |
| `Wire.ReadExtended` | wire/messages.go:477-489 | the cursor decoder equals the function |
| `Wire.ReadStatus` | wire/messages.go:523-549 | the tolerant cursor decoder equals the function |
| `Wire.ReadName` | wire/messages.go:650-679 | the counted loop equals the function |
| `Packets.ReadStream` | wire/packet.go:44-99 | reading the concatenation of written packets returns them and then a clean end |
| `Packets.CutStream` | wire/packet.go:44-73 | a stream cut anywhere yields the packets wholly before the cut, then a clean end exactly at packet boundaries |
| `Packets.OversizeStops` | wire/packet.go:44-73 | a packet over the limit stops the reader exactly there |
| `Packets.ReadPacket` | wire/packet.go:44-73 | one packet read into the reused buffer, or a new one exactly when it is too small, with every way of ending |
| `Packets.ReadPackets` | wire/packet.go:30-43 | through one recycled buffer every packet arrives intact |
| `Packets.WritePacket` | wire/packet.go:84-99 | one frame is written, or nothing when it is over the limit |
| `Paths.CleanPath` | path.go:30-53 | the split, push and pop loop equals the specification |
| `Paths.CleanIsCanonical` | path.go:30-53 | the result is a slash and proper names, namely those of a clamped walk over the parts |
| `Paths.WalkIsCancel` | path.go:37-50 | that walk equals cancelling names against later parents, read backwards |
| `Paths.CleanCompose` | path.go:30-53 | resolving in two steps is resolving at once, exactly when the length limit treats both inputs alike |
| `Paths.CleanLength` | path.go:30-53 | the result is at most one byte longer, and then only gained its slash |
| `Paths.CleanIdempotent` | path.go:30-53 | the resolver fixes its own output exactly when that is at most 4096 bytes, which fails only for a clean relative path of exactly 4096 |
| `Paths.SplitAppend` | path.go:36-38 | splitting distributes over joining with a slash |
| `Paths.SplitJoin` | path.go:36-52 | splitting undoes joining |
| `Paths.JoinSplit` | path.go:36-52 | joining undoes splitting |
| `Paths.JoinNameCanonical` | path.go:80-92 | joining refuses exactly the improper names and the too long results, except that under the root length goes unchecked, and otherwise appends exactly one component |
| `Paths.ParentBaseOfJoin` | path.go:56-71 | parent and base take apart what joining put together |
| `Safety.ReplyCarriesId` | session.go:163-168 | every packet, malformed ones included, gets a reply with its first four bytes as id, or 0 |
| `Safety.RunIds` | session.go:181-310 | a run answers every packet once, in order, under its own id |
| `Safety.RunReadOnly` | ops.go:390-403 | no packets change a read-only export, no handle is ever marked for writing, and the driver is never asked for a mutation |
| `Safety.ServeReadOnly` | copydata.go:56-58 | one packet keeps that |
| `Safety.ServeCanonical` | ops.go:30-36 | path SETSTAT aside, every path handed to the driver and every handle's path is canonical |
| `Safety.RunCanonical` | ops.go:210-214 | over any packets every handle's path is canonical, and every path handed to the driver is, if and only if no path SETSTAT that reaches the driver carried a path that was not |
| `Safety.ServeSetstat` | session.go:214-219 | one path SETSTAT leaves the table alone and hands over a path that is not canonical exactly when it was sent one and has something to set |
| `Safety.SetstatActs` | ops.go:91-135 | a SETSTAT reaches the driver exactly when the export is writable, it has something the driver can set, and a size, if given, can be set and held |
| `Safety.SetstatVerbatim` | session.go:214-219 | path SETSTAT hands over the client's path, canonical exactly when that was |
| `Safety.SetstatUnresolved` | session.go:214-219 | a packet for which it is not |
| `Safety.FstatIsStat` | ops.go:73-79 | FSTAT answers as STAT of the opening path exactly when the resolved path is at most 4096 bytes |
| `Safety.AdvertisedLimits` | limits.go:36-59 | a READ's reply can always be framed, and a WRITE of the advertised length fits the limit exactly when that is at least 54 |
| `PoolSafety.StreamIds` | concurrent.go:51-60 | in every state of every run each client has been sent replies to its first requests, one each, in order, under their ids, and to all of them once it is idle |
| `PoolSafety.PoolReadOnly` | ops.go:614-622 | in every state of every run on a read-only export nothing has changed, no mutation was asked for, and no handle or job could ask for one |
| `PoolSafety.PoolCanonical` | ops.go:30-36 | in every state of every run paths behind handles and in jobs are canonical, and those handed to the driver are if and only if no path SETSTAT strayed |
| `Instances.CrossedStream` | ops.go:543-556 | a READ of 4 bytes of a 2-byte file and a WRITE at 4, with a run whose stream is not serial |
| `Instances.CloseBesideJob` | server.go:214-218 | a run in which one session closes its file while another's READ is in the driver |
| `Instances.TokenTwice` | handle.go:108-116 | two OPENs given one token, after which the first file is never closed |
| `Instances.SilentStat` | ops.go:434-440 | an OPEN answered OK without a handle |
| `Instances.LongRelativePath` | path.go:30-53 | a 4096-byte path whose resolution does not resolve |
| `Instances.LongFstat` | ops.go:73-79 | an OPEN packet for it gives a handle, STAT of it answers, and FSTAT of the handle does not |
| `Instances.LongNameUnderRoot` | path.go:80-92 | a name that joins under the root into a path that does not resolve |
| `Instances.CopyOverflow` | copydata.go:82-98 | a copy-data packet of 2^62 bytes at offset 2^62 of a 10-byte file, answered OK, that grows an empty file to 2^62 bytes |
| `Instances.SmallLimit` | limits.go:46-48 | a packet limit of 20 under which a WRITE of the advertised length does not fit |

## Left out

- The sshd and fat32demo directories: authentication, connections and a command line.
- The scheduler and the range copier: modules of their own, used here through their documented rules.
- Runs.StreamEquivalence: across sessions it asks that no barrier that asks about files starts while another session has a READ or WRITE pending, because the program keeps no arrival order then (Arrival.ArrivalExactly); one session needs no such condition, and Linearization.LinearizableAlways has none.
- Linearization.Streams: the same condition on barriers across sessions.
- Runs.SerialEquivalence: the same condition on barriers across sessions.
- Runs.RunFaithful: the same condition on barriers across sessions.
- Runs.UnquietRun: the same condition on barriers across sessions.
- Pool.FaithfulStep: the same condition on barriers across sessions.
- Pool.FaithfulAlone: the same condition on barriers across sessions.
- Storing.StoresAndReads: one client alone on the server, and READs after a barrier; Linearization.Linearizable and Schedules.ClientOrder say what holds beside others.
- Linearization.OneClient: one direction; Realizing.ClientBytes has both.
- Copying.CopyIsSplice: asks for a source that an int64 can measure.
- The driver calls made are recorded in Pool and not in Grain.
- Sessions.Session.Run: the one-at-a-time session; the concurrent dispatch of session.go:43-86 is Pool.
- Sessions.Session.Loop: answers one packet before it reads the next; the concurrent dispatch of the same loop is Pool.
- copyData, STAT, SETSTAT, MKDIR, REMOVE, RENAME, SYMLINK, READLINK and REALPATH are modelled on values, since they change nothing in the session; what they do in the driver is the driver's.
- Client-side decoders for HANDLE, DATA, ATTRS, VERSION and EXTENDED_REPLY are modelled as functions only, not with a cursor.
- The long listing line and the mode string: presentation; a long name is any function of the name and the attributes.
- Packet timers, deadlines, slots and the server-wide budget: timing and memory.
- Symbolic links, permissions and snapshots inside drivers.
