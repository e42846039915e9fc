# Termulaa, modelled and proved in Dafny

Termulaa keeps terminal sessions alive on a machine and shows them in browsers. This
project models its core and proves what it is for:

- **The emulator** (`src/internal/vterm`): a byte-at-a-time parser of ECMA-48 sequences
  and UTF-8, a terminal with two screens, scrollback and modes, and a snapshot that
  writes the whole state back as an escape stream.
- **Session fan-out** (`session.go`): output recorded and broadcast, clients that join
  from a snapshot, their coalescing queues, and the replay ring.
- **Tabs** (`tabs.go`, `manager.go`, `handler.go`, `ui/app.js`): the layout tree on the
  server and its copy in the browser, the session registry, tab ownership.
- **The tunnel** (`tunnel.go`, `docs/rc-protocol.md` section 8): which agent holds a token.
- **Notifications** (the Android client): what a check reports and remembers.

## How it is built

Every component is there twice. A specification gives its operations as functions on
values, and beside it stands the imperative form the source has: `Machine` (the parser
over fixed arrays), `Buffer` and `Display` (screens whose rows are edited, recycled and
shared out in place), `Emulator` (both together), `Writer` (the snapshot as it is
written), `Client`, `Session` steps, the ring's `Buffer`, `Manager`, `TabClients`, heap
layout trees, the browser's parent-pointer trees, `AppStore`. Each method is proved to do
exactly what its function says; the theorems are about the functions, for all inputs, all
runs and all interleavings.

The methods of `ScreenMachine.Display` and of `Handlers` all have the same shape,
`View() == F(old(View()))` for the function F of the same operation, with rows,
scrollback and blank cache kept in storage of their own. The table below lists those with
a loop or a case of their own; the others are WrapToNextLine, LineFeed, ReverseIndex,
ScrollBy, InsertLines, DeleteLines, EraseInLine, EraseChars, DeleteChars, TabForward,
TabBackward, MoveCursor, CursorUp, CursorDown, SaveCursor, SoftReset, FullReset and the
constructor of Display (term.go:87-875), and Execute, SetModes, SetPrivateModes and
SetRegion of Handlers (term.go:460-486, dispatch.go:180-258).

| files | what they hold |
|---|---|
| Utf8, Parser, Sequences, Cuts, Resync, ParserMachine | the parser, chunking, what it reads back, resynchronisation |
| Cells, Width, Terminal, Dispatch | the terminal as functions on values |
| CellArrays, ScreenBuffer, ScreenMachine, Handlers, ResizeLoops | the terminal in place |
| Snapshots, SnapshotWriter | the snapshot as pieces, and as it is written |
| Renditions, Content, Paint, Restore, Cursors | what is written of a line and of the rest of the state, and what one piece does to a receiver |
| Typewriter, Receiving | lines typed on one long strip, and a receiver that holds its end |
| Alignment, Tallies, Bleeding, RoundTrip, Fidelity, Exactness | the round trip of the main screen: where each line ends up, how many marks are left, which backgrounds show, and when all is as it was |
| Twins, Shifting, Tiles, Carrying, AltRoundTrip | the round trip with the alternate screen active, whose rows are typed from where the main cursor was |
| Reachable, Storing, Restorable | what every run keeps, and the round trips of every run |
| Samples, Shortfalls, Losses, Editors | output that a snapshot does not reproduce, one for each condition |
| Resizing, Conserving, History | geometry, resizing, scrollback |
| Simulation, Rejoin, Joining | a client that starts from a snapshot keeps up, and when |
| ClientQueue, Fanout, Mirror, RingBuffer | the session |
| Layouts, LayoutNodes, BrowserTrees, Agreement, Replicas, Registry, Ownership, Handshakes | tabs |
| Takeover, Notifications | tunnels and notifications |

## Where the code falls short of its promise

Each of these is a lemma with the input that shows it, beside the theorem that says when
the promise holds.

- A snapshot restores a terminal on its main screen exactly when all of the following
  hold (`Restorable.RunRoundTrip`, both directions, over all runs of output, resizes and
  limit changes):
  wide characters are whole (`Shortfalls.HalvedCharacter`);
  every line marked as a continuation writes something and stands behind a line it fills,
  up to a last column that its own leading wide character leaves blank
  (`Shortfalls.ErasedContinuation`), is not the oldest line (`Shortfalls.FirstFlagLost`)
  and, unless the screen is a single row, is on the screen below its first row
  (`Shortfalls.FirstRowContinued`, `Shortfalls.StoredContinuation`; on a single row
  continuations do come back, `Shortfalls.ContinuationKept`);
  stored lines are trimmed, fit the width and keep the limit, which only a change of
  width breaks (`Restorable.OutputStores`);
  no line bleeds, that is, no row scrolls in under a background that the line written on it
  leaves showing (`Losses.BackgroundBleeds`);
  the saved cursor is plain: no link, default charsets, no origin mode
  (`Losses.SavedCharsetLost`);
  the cell under a pending wrap can be drawn again (`Losses.BlankWrapLost`);
  and in origin mode the cursor is inside the region (`Losses.OutsideRegion`,
  `Losses.CursorBelowRegion`).
- With the alternate screen active (`Restorable.RunAltRoundTrip`, both directions, over all
  runs) the main screen must meet these conditions, origin mode aside, 1049 must save the
  very cursor that was saved, and the alternate screen must meet them too, with its rows
  counted from the main cursor's line. Since no home is written before the rows, they are
  typed from the main cursor's column. If that is not the first, the first row and its
  continuations come back in three shapes only (`Tiles.ShapeOf`): all blank; filling their
  lines and repeating themselves every so many cells as are left beside the prompt, in a
  blank with a background or in the cell that is written again under a pending wrap; or,
  with one column left, up to such a row behind which one begins with a wide character,
  which goes to the next line whole and brings the rest into place. In the last two
  shapes the rows behind come back a line further down the strip, so they must not bleed
  there, and on a single row the first must be marked. A row of text beside a prompt never
  comes back (`Editors.TitleMoved`; `Editors.PromptCarried`, `Editors.OverflowDrawn`); a
  fresh terminal that enters its alternate screen does (`Editors.FreshAlternate`).
- The snapshot does not say where in a sequence the parser is: a joined client follows the
  server over all further output exactly when the parser is between sequences and the
  snapshot says everything of the terminal (`Joining.JoinExactly`; an output that shows it
  for each other state, `Joining.WitnessDiffers`).
- A cut between two writes matters exactly when it tears a rune whose rest does not follow
  (`Cuts.CutExactly`, `Cuts.ChunkingExactly`; the bytes are in `Parser.TornCutDiffers`).
- An escape character and a byte bring two parsers into step exactly when the byte is no
  control, or ESC, CAN or SUB (`Resync.MeetExactly`; a line feed does not,
  `Resync.ControlAfterEscDiffers`).
- A short write that ends exactly at the end of the unfilled ring makes its whole contents
  disappear (`RingBuffer.LandingLosesAll`; `RingBuffer.RingIsLast` gives the exact condition).
- Lost close frames cost one displacement each, without end
  (`Takeover.LostSignalsLivelock`); nothing else does beyond one for each loop
  (`Takeover.DisplacementsBounded`).
- One check notifies a machine twice exactly when it is listed twice while it has news
  (`Notifications.NotifiedTwiceExactly`, with such a check in
  `Notifications.ListedTwiceNotifiedTwice`).
- Check and registration of a connection are separate calls, with the user's answer in
  between: a tab gets two owners exactly when somebody registers after another connection
  did so behind its check (`Handshakes.OneOwnerExactly`; such a run is
  `Handshakes.BothFindItFree`).

A layout a client sends may have panes without an id, which the check does not ask about:
the registry's invariant survives exactly if it names them all (`Registry.UpdateExactly`).
A tab deleted without its sessions would leave strays exactly if one of its panes has a
session (`Registry.DeleteStrays`). The one caller, handler.go:201, always asks for the
sessions to go; strays of other origins are swept when the state is loaded
(`Registry.SweepRestores`).

## Model

| member | source | states |
|---|---|---|
| Restorable.RunRoundTrip | src/internal/vterm/snapshot.go:9-146 | After any well-formed output, any changes of size and of the scrollback limit, in any order, on the main screen: a fresh terminal of the size and limit is given the same state by the snapshot if and only if the lines are laid as typing them again lays them, none bleeds, the saved cursor is plain, the pending wrap can be drawn and origin mode reaches the cursor |
| Restorable.RunAltRoundTrip | src/internal/vterm/snapshot.go:21-26 | The same over all runs that end on the alternate screen: both screens come back if and only if each of the two does |
| Exactness.SnapshotRoundTrip | src/internal/vterm/snapshot.go:13-146 | The main screen's equivalence for every terminal whose contents can be written, whatever the layout of its lines, one row included |
| Exactness.LinesExact | src/internal/vterm/snapshot.go:94-113 | Rows and scrollback come back if and only if wide characters are whole, stored lines are trimmed, fit and keep the limit, every marked line writes something behind a line it fills and is on the screen below the first row or the screen is one row, and none bleeds |
| Fidelity.SnapshotRebuilds | src/internal/vterm/snapshot.go:13-146 | What a fresh terminal holds after any snapshot: the lines typed again, region, pen, link, charsets, title, modes, and what becomes of cursor, saved cursor and pending wrap |
| Fidelity.RebuiltExact | src/internal/vterm/snapshot.go:119-145 | What is rebuilt equals the original if and only if saved cursor, pending wrap, origin mode and the typed lines allow it |
| Receiving.OnLines | src/internal/vterm/snapshot.go:94-113 | Any lines, continued, too wide or blank, written to a receiver leave on its screen and in its scrollback what typing them on one long strip leaves |
| Bleeding.RowSame | src/internal/vterm/term.go:548-565 | A row on the screen is drawn as it was if and only if it does not scroll in under a background that it leaves showing |
| AltRoundTrip.AltSnapshotRoundTrip | src/internal/vterm/snapshot.go:13-146 | With the alternate screen active, whatever both hold: same state of both screens if and only if the main screen comes back as on its own, 1049 saves the cursor that was saved, and the alternate rows are laid right for where the main cursor is, with a plain saved cursor, a wrap that can be drawn and a cursor in reach |
| AltRoundTrip.AltSnapshotRebuilds | src/internal/vterm/snapshot.go:13-82 | What the receiver ends up with on both screens, whether or not that is the same |
| Carrying.RowsExact | src/internal/vterm/snapshot.go:102-109 | Rows typed from any column of any line, the last cell under a pending wrap written again: they come back if and only if they are laid right for that place; from the first column as on a main screen, else the first row with its continuations is blank, repeats itself every so many cells as are left, or is brought into place by a wide character when one column is left |
| Tiles.ShapeOf | src/internal/vterm/snapshot.go:102-109 | A first group of rows that comes back from another column than the first has one of those three shapes |
| Tiles.ShapeWell | src/internal/vterm/snapshot.go:102-109 | And a group of such a shape is drawn as it was |
| Carrying.TitleMoves | src/internal/vterm/snapshot.go:102-109 | A first row that begins with a narrow character never comes back from another column, whatever its length and its continuations, unless a cell of it or of them is written again for a pending wrap |
| Carrying.FirstRowAlone | src/internal/vterm/snapshot.go:102-109 | A first row that nothing continues and that writes something comes back in two cases only: one column is left and it begins with a wide character, or it fills the line and repeats itself |
| Twins.TwinRun | src/internal/vterm/term.go:819-834 | Whatever a snapshot writes on the alternate screen acts there as on a main screen, scrollback aside |
| Conserving.RunsTidy | src/internal/vterm/term.go:240-303 | After any run of well-formed output, changes of size and of the limit, cells, links, title and modes can be written, and no wide character begins in the last column of a row |
| Reachable.RunsAreTidy | src/internal/vterm/parser.go:80-129 | So it is after any well-formed output, in any pieces |
| Reachable.ApplyTidy | src/internal/vterm/term.go:342-429 | No single action spoils that |
| Storing.ApplySize | src/internal/vterm/term.go:93-123 | Output never changes the size or the scrollback limit |
| Storing.ApplyStored | src/internal/vterm/term.go:309-330 | Stored lines are always within the limit, trimmed, and no wider than the screen |
| Restorable.OutputStores | src/internal/vterm/term.go:309-330 | Runs of output alone keep the size, and store only trimmed lines that fit, within the limit |
| Snapshots.PiecesRead | src/internal/vterm/snapshot.go:13-82 | The bytes of a snapshot dispatch exactly the actions of its pieces, and leave the parser in its ground state |
| Renditions.SgrRoundTrip | src/internal/vterm/snapshot.go:185-248 | ECMA-48 8.3.117: from any pen, the parameters written for a style set exactly that style |
| Renditions.SgrWritable | src/internal/vterm/snapshot.go:185-248 | They need between 1 and 25 of the 32 parameter slots |
| Shortfalls.FirstFlagLost | src/internal/vterm/snapshot.go:94-113 | Every terminal whose oldest line is marked as a continuation loses the mark |
| Shortfalls.FirstRowContinued | src/internal/vterm/term.go:794-809 | Output that marks the first row: abc on two columns, the first line deleted |
| Shortfalls.StoredContinuation | src/internal/vterm/term.go:516-543 | And output that stores such a line |
| Shortfalls.ErasedContinuation | src/internal/vterm/snapshot.go:151-177 | A continuation that is erased writes nothing, and the receiver is one line short |
| Shortfalls.HalvedCharacter | src/internal/vterm/snapshot.go:160-163 | Erasing the first half of a wide character leaves a half that writes nothing, so the rest of its line moves left |
| Shortfalls.ContinuationKept | src/internal/vterm/term.go:516-543 | On one row abc leaves the row marked, and the snapshot reproduces it: there as here the mark is set after the scroll that clears marks |
| Losses.SavedCharsetLost | src/internal/vterm/snapshot.go:119-124 | The bytes ESC ( 0 ESC 7 save a charset that does not come back, at any size |
| Losses.BlankWrapLost | src/internal/vterm/snapshot.go:136-145 | A row of spaces leaves a wrap pending that does not come back, at any size |
| Losses.BackgroundBleeds | src/internal/vterm/snapshot.go:94-113 | A letter on red, reset, a new line and a letter: the scrolled-in row comes back red |
| Losses.OutsideRegion | src/internal/vterm/snapshot.go:130-135 | In origin mode every cursor outside the region, above or below, with a wrap pending or not, comes back on the region's nearest line |
| Losses.CursorBelowRegion | src/internal/vterm/snapshot.go:130-135 | Output that leaves it below, over the alternate screen |
| Editors.TitleMoved | src/internal/vterm/snapshot.go:21-26 | With the main cursor off the first column, an alternate screen whose first row begins with a narrow character does not come back, unless a wrap is pending on that row or its continuations |
| Editors.FreshAlternate | src/internal/vterm/snapshot.go:21-26 | A fresh terminal that enters its alternate screen is reproduced exactly, at any size |
| Editors.PromptCarried | src/internal/vterm/snapshot.go:21-26 | After a prompt of one letter, the row an editor shows comes back one column to the right |
| Editors.OverflowDrawn | src/internal/vterm/snapshot.go:21-26 | If it does not fit beside the prompt, its last letter comes back as the first |
| Joining.JoinExactly | src/internal/vterm/snapshot.go:9-12 | A client that starts from the snapshot of any terminal that can be written shows what the server shows after every further output if and only if the snapshot says everything of the terminal and the server's parser is between sequences |
| Joining.WitnessDiffers | src/internal/vterm/snapshot.go:9-12 | For each place inside a sequence, an output after which it does not |
| Rejoin.JoinedExact | src/cmd/termulaa/session.go:634-654 | A client that has read the snapshot is similar to the server if and only if the state is reproduced, tab stops are the default ones and no cursor is saved on an inactive alternate screen |
| Rejoin.JoinedFollows | src/cmd/termulaa/session.go:634-654 | Client and server react alike to any further output, on either screen |
| Rejoin.SimShows | src/internal/vterm/snapshot.go:9-12 | What similar terminals have in common: lines, history, cursor, pen, modes, title |
| Simulation.SimRun | src/internal/vterm/dispatch.go:56-201 | Two terminals that show the same react alike to every action, unless one repeats a rune printed earlier |
| Fanout.AttachExact | src/cmd/termulaa/session.go:587-654 | In every interleaving, what a client that joined after k bytes was sent and has queued is the snapshot at k and every byte since, none lost, none twice, or a prefix of that once it overflowed; and no wakeup is lost |
| Mirror.ClientMirrors | src/cmd/termulaa/session.go:587-727 | End to end: once everything is delivered, the client's terminal and parser are the server's |
| ClientQueue.AppendedSays | src/cmd/termulaa/session.go:231-247 | Coalescing keeps the bytes in order and never merges across a text frame |
| ClientQueue.PushBinaryKeeps | src/cmd/termulaa/session.go:231-247 | Byte count, frame bound and wakeup token kept; overflow exactly when the backlog limit is passed |
| ClientQueue.PushTextKeeps | src/cmd/termulaa/session.go:250-259 | A message is queued behind all bytes, with a wakeup |
| RingBuffer.RingIsLast | src/cmd/termulaa/session.go:50-113 | The ring holds the last bytes of the stream if and only if it is not yet full or its first wrap set the mark |
| RingBuffer.LandingLosesAll | src/cmd/termulaa/session.go:64-79 | Two writes that fill it exactly leave it empty to a reader |
| RingBuffer.LoadRestores | src/cmd/termulaa/session.go:152-179 | Saved contents loaded at the same size come back, with the wrapped mark |
| RingBuffer.CleanReplayStart | src/cmd/termulaa/session.go:122-138 | The loop finds where the replay may start |
| RingBuffer.ReplayFollows | src/cmd/termulaa/session.go:115-138 | A replay cut at an escape character that a settling byte follows keeps in step with parsing the whole history |
| RingBuffer.FallbackFollows | src/cmd/termulaa/session.go:122-138 | A replay from anywhere else, behind a newline or at the head, does for every kept part what parsing the whole history does if and only if that one is between sequences there |
| Parser.ChunkingIrrelevant | src/internal/vterm/parser.go:80-129 | However a well-formed stream is cut into writes, inside runes, control sequences or strings, actions and parser state are those of one write of the whole |
| Dispatch.WriteChunks | src/internal/vterm/parser.go:80-129 | The same for the whole emulator: chunking does not change the terminal |
| Cuts.CutExactly | src/internal/vterm/parser.go:80-129 | One cut, any bytes: two writes see what one sees if and only if the cut does not tear a rune |
| Cuts.ChunkingExactly | src/internal/vterm/parser.go:80-129 | A list of writes cut in ground: every later run of writes sees what one write sees if and only if no cut tears a rune, whatever is torn inside a write |
| Cuts.ChunkingHolds | src/internal/vterm/parser.go:80-129 | In every state a list of writes none of whose cuts tears a rune is read as one write |
| Cuts.SeamInString | src/internal/vterm/parser.go:80-129 | Inside a string a torn cut does no harm, whatever the next write goes on with, exactly when what is torn is lost anyway, the length limit included |
| Cuts.InStepExactly | src/internal/vterm/parser.go:80-129 | A parser dispatches what a fresh one does, over all later output, if and only if it is between sequences |
| Resync.MeetExactly | src/internal/vterm/parser.go:144-289 | ESC and a byte bring any two parsers into step if and only if the byte is no control, or ESC, CAN or SUB |
| Resync.ReplayTracks | src/cmd/termulaa/session.go:115-138 | From two parser states, after ESC and such a byte the control states agree and all later output dispatches the same actions |
| Utf8.EncodeDecode | src/internal/vterm/parser.go:90-129 | RFC 3629: decoding inverts encoding for every rune, whatever follows it |
| Utf8.DecodeEncode | src/internal/vterm/parser.go:90-129 | Only one byte string encodes a rune |
| Sequences.CsiRoundTrip | src/internal/vterm/parser.go:144-289 | ECMA-48 5.4: a control sequence whose at most 32 parameters are given and at most 2^24 is dispatched with exactly the parameters, marker, intermediate and final byte it was written with |
| Sequences.OscRoundTrip | src/internal/vterm/parser.go:144-289 | An operating system command within the length limit is dispatched with exactly its text |
| Sequences.TextRead | src/internal/vterm/parser.go:80-129 | Printable text written in UTF-8 is printed rune by rune and nothing else |
| Sequences.ParseBounded | src/internal/vterm/parser.go:291-322 | Whatever bytes arrive, at most 32 parameters of at most 2^24 each and bounded, well-formed string text |
| Sequences.ParseClean | src/internal/vterm/parser.go:144-289 | In a well-formed stream no control character is ever printed or stored as text |
| Resizing.GeometryHolds | src/internal/vterm/term.go:223-303 | Over all runs of output, resizes and limit changes: rows and columns right, cursors, saved cursors and region in range, a wrap pending only in the last column, parser buffers bounded |
| Resizing.ResizedFits | src/internal/vterm/term.go:240-303 | A resized screen fits its new size |
| Conserving.RunsConserve | src/internal/vterm/term.go:240-303 | After any run of well-formed output, height and limit changes, further changes of height that never fill the scrollback keep the text of scrollback and rows |
| Resizing.HeightsConserve | src/internal/vterm/term.go:240-303 | Any sequence of height changes that never fills the scrollback keeps the text of scrollback and rows, up to trailing blanks |
| Resizing.ShrinkGrow | src/internal/vterm/term.go:252-303 | Shrinking and growing back with the cursor on the last row restores rows, scrollback and cursor |
| History.ScrollbackIsSuffix | src/internal/vterm/term.go:309-330 | Over any run that does not erase it, scrollback is the end, in order, of all trimmed lines that scrolled off |
| History.ActionGrew | src/internal/vterm/term.go:488-543 | An action stores exactly the lines it scrolls off the top of the main screen |
| History.PushAllSuffix | src/internal/vterm/term.go:309-330 | A bounded store keeps the end of what was pushed; after an overflow never less than the limit less an eighth |
| Terminal.New | src/internal/vterm/term.go:93-131 | A fresh terminal fits its size |
| Cells.LastVisible | src/internal/vterm/cell.go:130-137 | The index just past the last visible cell |
| Cells.LastVisibleIs | src/internal/vterm/cell.go:130-137 | Nothing else has that property |
| Cells.Fitted | src/internal/vterm/cell.go:149-160 | A fitted row has the width asked for, keeps its columns, blanks a wide character the edge would cut, and is padded with blanks |
| Handshakes.OneOwnerExactly | src/cmd/termulaa/handler.go:304-361 | Lock by lock, over all interleavings: no tab ever has two clients if and only if nobody registers after another connection did so behind its check or disconnect |
| Handshakes.BothFindItFree | src/cmd/termulaa/handler.go:304-361 | Such a run: two connections find the tab free and both register |
| Handshakes.LostNeverAttaches | src/cmd/termulaa/handler.go:304-361 | However handshakes interleave, a token lost to a takeover or a deletion never attaches again |
| Ownership.OwnershipSafe | src/cmd/termulaa/handler.go:304-361 | With check and registration in one step: over all runs at most one client per tab, and a lost token never attaches again |
| Ownership.LateLeaveHarmless | src/cmd/termulaa/manager.go:725-774 | The replaced connection's late unregister does not remove the resumed owner |
| Registry.RunKeeps | src/cmd/termulaa/manager.go:607-957 | Over all runs of manager calls, failed spawns included: panes distinct within and across tabs, every session a pane of exactly one tab |
| Registry.UpdateExactly | src/cmd/termulaa/manager.go:607-626 | A layout a client sends keeps that invariant if and only if it is refused or names all its panes |
| Registry.SweepRestores | src/cmd/termulaa/manager.go:125-219 | Dropping sessions without a pane restores the invariant and else changes nothing |
| Registry.DeleteStrays | src/cmd/termulaa/manager.go:630-652 | Deleting a tab but not its sessions keeps the invariant if and only if none of its panes has one |
| Replicas.Mirror | src/cmd/termulaa/ui/app.js:589-710 | The server's tree of nodes and the browser's tree with parent pointers, each edited in place in its own way, show the same layout after any sequence of splits and closes |
| Agreement.TreesAgree | src/cmd/termulaa/ui/app.js:589-710 | What the events of any sequence of splits and closes say of the layout is what the server holds, with distinct panes |
| Layouts.SplitInserts | src/cmd/termulaa/tabs.go:146-176 | A split puts the new pane right after its target, or changes nothing |
| Layouts.CloseRemoves | src/cmd/termulaa/tabs.go:180-211 | A close removes exactly one pane, never the last |
| Layouts.CloseUndoesSplit | src/cmd/termulaa/tabs.go:146-211 | Closing the pane just split off gives back the identical tree |
| Layouts.MatchesMeans | src/cmd/termulaa/tabs.go:119-136 | The check accepts a layout if and only if its panes with an id are the expected ones, each as often |
| Layouts.RenamedPanes | src/cmd/termulaa/tabs.go:216-247 | Replacing all sessions keeps the shape and names the panes in order |
| Takeover.DisplacementsBounded | docs/rc-protocol.md:243-313 | Over all runs a pool holds one instance's tunnels, and displaces at most as many tunnels as there are loops and lost close frames |
| Takeover.LostSignalsLivelock | docs/rc-protocol.md:289-306 | The bound is met: one displacement for every lost close frame, without end |
| Takeover.ConflictIsHarmless | src/cmd/termulaa/tunnel.go:337-374 | A refused newcomer changes nothing for others and stops for good |
| Takeover.HaltedForever | src/cmd/termulaa/tunnel.go:337-374 | A halted instance never holds a tunnel again |
| Takeover.RunTunnel | src/cmd/termulaa/tunnel.go:337-382 | The loop dials until a terminal outcome, with the delays the backoff rule gives |
| Notifications.NotifiesOnce | android/app/src/main/java/com/debkosh/termulaa/work/CheckRunner.kt:50-82 | Over any interleaving of checks, refreshes, seen, mute and forget steps, the output times notified of a machine strictly increase if and only if no check lists a machine with news twice |
| Notifications.NotifiedTwiceExactly | android/app/src/main/java/com/debkosh/termulaa/data/Diff.kt:96-147 | One check reports a machine more than once if and only if it is listed more than once while it has news |
| Notifications.ListedTwiceNotifiedTwice | android/app/src/main/java/com/debkosh/termulaa/data/Diff.kt:96-147 | Such a check |
| Notifications.OfflineOnce | android/app/src/main/java/com/debkosh/termulaa/data/Diff.kt:96-147 | Whatever is listed, two offline events of a machine have a sighting between them |
| Notifications.CheckRemembers | android/app/src/main/java/com/debkosh/termulaa/data/Diff.kt:96-147 | Exactly the remembered and the live machines are remembered, each once, with the values the last listing gives |
| Notifications.OutputNeverDecreases | android/app/src/main/java/com/debkosh/termulaa/data/Diff.kt:96-147 | The last known output of a remembered machine never goes back |
| ScreenBuffer.Buffer.Scroll | src/internal/vterm/term.go:516-543 | The recycling scroll equals the sequence specification, and no two rows, stored lines or the blank cache ever share storage |
| ScreenBuffer.RolledApart | src/internal/vterm/term.go:528-543 | Recycling moves storage about without sharing or dropping any |
| ScreenBuffer.RolledShows | src/internal/vterm/term.go:528-543 | What recycled rows show is the scrolled screen |
| ScreenBuffer.Shifted | src/internal/vterm/term.go:777-809 | Rows moved beside rows of new storage share nothing |
| ScreenBuffer.Buffer.PushScrollback | src/internal/vterm/term.go:309-330 | A trimmed copy with storage of its own is stored, the oldest eighth dropped on overflow |
| ScreenBuffer.Buffer.ClearRow | src/internal/vterm/term.go:548-565 | Copying from the cached blank row equals erasing, and the cache stays blank |
| ScreenBuffer.Buffer.OpenLines | src/internal/vterm/term.go:567-580 | Blank rows come in above, in storage of their own |
| ScreenBuffer.Buffer.CloseLines | src/internal/vterm/term.go:794-809 | Blank rows come in below, in storage of their own |
| ScreenBuffer.Buffer.EraseRows | src/internal/vterm/term.go:712-735 | Rows erased whole and unmarked, others unchanged |
| ScreenBuffer.CountVisible | src/internal/vterm/cell.go:130-137 | The loop from the right finds the last visible cell |
| ScreenBuffer.TrimmedCopy | src/internal/vterm/cell.go:141-146 | A copy, in fresh storage, without trailing blanks |
| CellArrays.InsertIn | src/internal/vterm/term.go:440-454 | Cells move right, blanks come in, a wide character cut by the edge is blanked |
| CellArrays.DeleteIn | src/internal/vterm/term.go:765-775 | Cells move left, blanks come in at the end |
| CellArrays.PlaceIn | src/internal/vterm/term.go:377-399 | The character stored, overwritten halves of wide characters blanked |
| CellArrays.ClearIn | src/internal/vterm/cell.go:109-119 | Cells in range erased with the background, bounds clipped, others unchanged |
| CellArrays.CopyDown | src/internal/vterm/term.go:533-533 | An overlapping copy towards the front moves every element |
| CellArrays.CopyUp | src/internal/vterm/term.go:446-446 | An overlapping copy towards the back moves every element |
| ScreenMachine.Display.Print | src/internal/vterm/term.go:342-404 | Charset, pending wrap, room for wide characters, insert mode and the store, in place |
| ScreenMachine.Display.Combine | src/internal/vterm/term.go:407-429 | A zero-width rune joins the last printed cell |
| ScreenMachine.Display.EraseInDisplay | src/internal/vterm/term.go:712-735 | The four modes, scrollback included |
| ScreenMachine.Display.RestoreCursor | src/internal/vterm/term.go:685-706 | All of them come back; with nothing saved, home and a plain pen |
| ScreenMachine.Display.EnterAltScreen | src/internal/vterm/term.go:819-834 | The alternate screen is cleared and takes the cursor; the main one keeps its storage |
| ScreenMachine.Display.LeaveAltScreen | src/internal/vterm/term.go:839-849 | Back to the main screen with the cursor carried over, or restored |
| Handlers.Csi | src/internal/vterm/dispatch.go:56-201 | What every control sequence does |
| Handlers.Esc | src/internal/vterm/dispatch.go:7-46 | Escapes, charset designation, alignment |
| Handlers.Osc | src/internal/vterm/dispatch.go:404-438 | Title and hyperlinks |
| Handlers.Sgr | src/internal/vterm/dispatch.go:262-359 | The loop over the parameters leaves the pen the rendition function gives |
| Handlers.Emulator.Write | src/internal/vterm/parser.go:80-129 | Parser and screens in place leave exactly what the functions on values say, for every write |
| ParserMachine.Machine.Feed | src/internal/vterm/parser.go:144-289 | One byte, on arrays with stale slots, does what the automaton says |
| ParserMachine.Machine.Write | src/internal/vterm/parser.go:80-129 | A write, with the rune carried over from the last one, does what the parser function says and appends exactly its actions |
| ParserMachine.Machine.PushDigitAt | src/internal/vterm/parser.go:291-305 | A digit extends the current parameter, saturating, or opens the first |
| ParserMachine.Machine.NextParamAt | src/internal/vterm/parser.go:307-322 | A separator opens the next parameter, clearing what an earlier sequence left in its slot |
| SnapshotWriter.Snapshot | src/internal/vterm/snapshot.go:13-82 | What the loops write is the snapshot of the terminal the arrays hold |
| SnapshotWriter.Writer.WriteRow | src/internal/vterm/snapshot.go:151-177 | The cells of a row with the changes of pen and link between them, up to the last visible cell or all of them |
| SnapshotWriter.WriteLines | src/internal/vterm/snapshot.go:90-112 | Scrollback and rows in order, a line break after each line that the next does not continue |
| SnapshotWriter.WriteScreen | src/internal/vterm/snapshot.go:86-146 | One screen: lines, saved cursor, region, cursor and pending wrap |
| ResizeLoops.ResizeOne | src/internal/vterm/term.go:240-303 | The loops of a resize give the resized screen |
| ResizeLoops.TakeBack | src/internal/vterm/term.go:277-287 | Lines come back from the scrollback while the cursor is on the last row |
| ResizeLoops.DropBlank | src/internal/vterm/term.go:255-259 | Blank rows below the cursor go first, no more than needed |
| ClientQueue.Client.QueueBinary | src/cmd/termulaa/session.go:231-247 | The queue after the call, as the function says |
| ClientQueue.Client.TakePending | src/cmd/termulaa/session.go:271-277 | Everything queued is taken, in order, and the queue is empty |
| RingBuffer.Buffer.Write | src/cmd/termulaa/session.go:50-79 | The array after a write, in its three cases |
| RingBuffer.Buffer.ReadAll | src/cmd/termulaa/session.go:82-113 | The contents in order of arrival |
| RingBuffer.Buffer.LoadFrom | src/cmd/termulaa/session.go:158-179 | The end of what was saved, with position and mark |
| LayoutNodes.SplitLayoutNode | src/cmd/termulaa/tabs.go:146-176 | The recursion that assigns children in place does what the tree function says |
| LayoutNodes.ClosePaneInLayout | src/cmd/termulaa/tabs.go:180-211 | The same for a close |
| BrowserTrees.Browser.ApplySplit | src/cmd/termulaa/ui/app.js:589-643 | The parent-pointer edit gives the tree a split gives |
| BrowserTrees.Browser.ApplyClosePane | src/cmd/termulaa/ui/app.js:645-710 | The parent-pointer edit gives the tree a close gives |
| BrowserTrees.FindParent | src/cmd/termulaa/ui/app.js:799-811 | The parent of a pane found in the browser's tree |
| BrowserTrees.Reconstruct | src/cmd/termulaa/ui/app.js:482-522 | The browser's tree shows the server's layout |
| BrowserTrees.Serialize | src/cmd/termulaa/ui/app.js:525-543 | What the browser sends back is the layout its tree shows |
| Registry.Manager.Split | src/cmd/termulaa/manager.go:818-850 | The maps after a split, spawn failure and unknown pane included |
| Registry.Manager.Close | src/cmd/termulaa/manager.go:855-905 | The maps after a close; the last pane gets a new session |
| Registry.Manager.Replace | src/cmd/termulaa/manager.go:910-957 | All sessions of a tab replaced, or none |
| Registry.Manager.Update | src/cmd/termulaa/manager.go:607-627 | A layout is taken only if it has the tab's panes |
| Registry.Manager.Delete | src/cmd/termulaa/manager.go:630-652 | The tab goes, and its sessions if asked |
| Ownership.TabClients.Resume | src/cmd/termulaa/manager.go:725-748 | The first client with the token is replaced in its place, token and count kept |
| Ownership.TabClients.Unregister | src/cmd/termulaa/manager.go:759-774 | Only the connection itself is removed |
| Ownership.TabClients.CanAttachSession | src/cmd/termulaa/manager.go:778-792 | Exactly the tokens of registered clients may attach, to sessions of an existing tab that its layout holds |
| Notifications.LatestOutput | android/app/src/main/java/com/debkosh/termulaa/data/Diff.kt:43-58 | The latest output time of a list of tabs; unknown when there are tabs and every one lacks the field |
| Notifications.ComputeCheck | android/app/src/main/java/com/debkosh/termulaa/data/Diff.kt:96-147 | The two passes over maps and lists give the check's result |
| Notifications.AppStore.RunOnce | android/app/src/main/java/com/debkosh/termulaa/work/CheckRunner.kt:34-82 | What one background check stores and posts |

## Left out

- Terminals of one column: a wide character needs two, and the code indexes column -1 there.
- Widths of runes from U+0300 on are an arbitrary table of 0, 1 and 2; the Unicode tables would be data only.
- Colours are a datatype; packing them into a 32-bit word is one expression each.
- The code of an OSC string is read without Go's integer range check: no code beyond it means anything.
- Sizes beyond 2^24 in the round trips: parameters saturate there.
- Sequences.CsiRoundTrip: parameters left empty and values above 2^24 are not written back by anything in the repository; what the parser makes of them is Sequences.ParseBounded.
- Equality after a round trip leaves out tab stops, the last printed rune, an inactive alternate screen and the cached blank row.
- The receiver is this emulator; xterm.js is not part of this model.
- Mirror.ClientMirrors: no resize between attach and delivery, no rune repeated that was printed before the snapshot, default tab stops; the session stays alive, so the exit path of the write pump, which skips text frames, is not modelled.
- The replay message is one marker byte and the snapshot; its JSON and base64 form is not modelled.
- Each screen has a blank cache of its own where the code shares one; tab stops, fields and cursor of a display are values that are replaced, rows and scrollback storage are edited in place.
- ResizeLoops.ResizeOne: works on rows as values, because the code makes new rows there and keeps no old storage; that rows share no storage is therefore stated for everything but a resize and a change of the scrollback limit.
- Resizing.HeightsConserve: asks that no line is wider than the screen; Conserving.RunsConserve shows it of every run that keeps the width. After the width shrinks, stored lines come back cut, as the code means it.
- Registry.RunKeeps: a layout taken from a client must name all its panes, which Layouts.MatchesMeans does not ask; Registry.UpdateExactly says that nothing less will do. Every call is one step.
- Registry.Manager.Split: every call is one step. The code releases its lock while it spawns in a split, a close and a replacement of all sessions, so a split that lands inside a replacement leaves a session no tab shows; that interleaving is not modelled.
- Ratios of splits, DOM elements, disposed panes and dragging in the browser.
- Legacy agents without an instance id, tunnel jitter and the text of conflicts.
- Processes, PTYs, files, clocks, tickers, deadlines, HTTP routes and settings; failures of a spawn and times are parameters, files are byte sequences.
- The merge of cached and live rows for the Android screen, and everything drawn there.
