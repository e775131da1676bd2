# pi-webradio: a verified model of the radio core

pi-webradio turns a small computer into an internet radio and MP3 player.
An `mpg123` decoder process plays a radio stream or a file. Clients
(a web page, a command-line client) call named API operations and receive
a stream of events: what is playing, the volume, the current directory,
keep-alive ticks.

This project models the core of that program in Dafny:

- **`Decoder.Mpg123`** (`decoder.dfy`): the wrapper around the decoder.
  - Its state: process running, playing, paused, current target, volume, mute.
  - The commands it writes to the decoder's standard input.
  - Its reader, which turns each output line (`@P 0`, `@I ICY-META`,
    `@SAMPLE`, ...) into events and state changes.
- **`Events.RadioEvents`** (`events.dfy`): the event multiplexer.
  - An input queue, and one bounded queue of 20 entries per consumer.
  - A keep-alive tick every 15 idle polls.
  - Consumers whose queue is full are dropped.
  - On shutdown, while the thread is still alive, every registered consumer whose queue has room gets `None`; a full queue is skipped.
- **`Formatter`** (`formatter.dfy`): the event formatter.
  - The table of text templates, filled from an event's fields.
- **`Store.WebRadio`** (`store.dfy`): the application's state dictionary.
  - `update_state`, the version, and saving and restoring the mode.
- **`Player.Player`** (`player.dfy`): the directory player.
  - Choosing a directory below the root and listing it (sorted subdirectories
    and `.mp3` files).
  - Playing one file.
  - The `_play_dir` thread, which plays a list of files one after another and
    waits for each file's `eof`. It is modelled as a state machine (`DirPlay`)
    advanced one step at a time.
- **`Radio.Radio`** (`radio.dfy`): the radio.
  - Its channel list, numbered from 1.
  - Python's negative indexing when a channel is looked up.
  - Next and previous channel with wrap-around, on and off, and the
    persistent last channel.
- **`Api`** (`api.dfy`): the API object.
  - Operations are attached to it by name, and a request is dispatched by name.
  - The list of public operations is built by reflection.

Shared helpers:

- `values.dfy`: Python values and dictionaries as ordered key/value lists.
- `text.dfy`: string operations (`split`, `rstrip`, `basename`, `%d`, `{:02d}`).
- `sorting.dfy`: sorting strings in code-point order.
- `paths.dfy`: paths as lists of components, `normpath`, `commonpath` and the
  `mm:ss` time format.

The operating system and the decoder process are parameters of the model:
- a `FileSystem` map says what exists below `/`;
- a `duration` function stands for `mp3info`;
- the decoder's output lines are handed to `HandleLine` one at a time;
- what the program writes to the decoder is the `stdin` sequence.

All source paths below are relative to the repository root.

## Model

| member | source | states |
|---|---|---|
| Decoder.Target | files/usr/local/lib/webradio/SRMpg123.py:121 | The target name the decoder compares against: an `http` URL is kept whole; any other path is reduced to its basename, the longest slash-free suffix (a `/` precedes it unless it is the whole path). |
| Decoder.LoadCommand | files/usr/local/lib/webradio/SRMpg123.py:136-139 | The load command is one `LOAD...` line ending in a space, the URL and a newline; it is `LOADLIST 0 ` exactly for a `.m3u` playlist, and plain `LOAD ` otherwise, with no other characters in either case. |
| Decoder.Clamp | files/usr/local/lib/webradio/SRMpg123.py:302-312 | A volume sent to the decoder is always within 0..100: values inside the range are kept, values below become 0, values above become 100. |
| Decoder.Quoted | files/usr/local/lib/webradio/SRMpg123.py:222 | The capture group `'([^']*)'` never contains a quote. |
| Decoder.Classify | files/usr/local/lib/webradio/SRMpg123.py:225-272 | `EndOfOutput` exactly for the empty string `readline` returns at the end. `@F` lines are ignored; `@P 0`, `@P 1` and `@P 2` are recognised as stop, pause and play. The reader also ends on `Crash`, which only an `@I ID3v2` or `@SAMPLE` line can cause. |
| Decoder.QuotedOne | files/usr/local/lib/webradio/SRMpg123.py:222 | With only one quote in the line, the ICY pattern finds no title. |
| Decoder.QuotedTwo | files/usr/local/lib/webradio/SRMpg123.py:222 | The text between the first two quotes is the captured title. |
| Decoder.IcyMatchSkip | files/usr/local/lib/webradio/SRMpg123.py:222 | The backtracking search for the last match is unaffected by positions where no match starts. |
| Decoder.IcyNoLateHit | files/usr/local/lib/webradio/SRMpg123.py:222 | In a `StreamTitle='...';` body, no match of the pattern starts after the tag. |
| Decoder.IcyBodyMatch | files/usr/local/lib/webradio/SRMpg123.py:222 | The search over a `StreamTitle` body yields exactly the quoted title. |
| Decoder.IcyHitAtTag | files/usr/local/lib/webradio/SRMpg123.py:222 | The pattern matches at the `ICY-META` tag, and the captured text is the quoted title. |
| Decoder.IcyMetaStreamTitle | files/usr/local/lib/webradio/SRMpg123.py:234-237 | An `@I ICY-META: StreamTitle='t';` line publishes `icy_meta` with exactly `t`. |
| Decoder.IcyNameLine13 | files/usr/local/lib/webradio/SRMpg123.py:238-240 | An `@I ICY-NAME: n` line publishes `icy_name` with `n`: the text after column 13 with the newline removed. |
| Decoder.Id3Split | files/usr/local/lib/webradio/SRMpg123.py:241-245 | An `@I ID3v2.` line publishes the first two `:`-separated fields as tag and value, and crashes the reader when there is no `:`. |
| Decoder.Id3Fields | files/usr/local/lib/webradio/SRMpg123.py:241-245 | For `tag:value`, the published value is only the part of `value` before its first `:`. |
| Decoder.Id3Crash | files/usr/local/lib/webradio/SRMpg123.py:244-245 | An ID3 line without `:` makes `tag[1]` raise; the reader ends. |
| Decoder.SampleFields | files/usr/local/lib/webradio/SRMpg123.py:267-272 | `@SAMPLE n d` publishes the ratio n/d, and crashes the reader (division by zero) when d is 0. |
| Decoder.ClassifySample | files/usr/local/lib/webradio/SRMpg123.py:246-267 | A line starting with `@SAMPLE` is not taken by any earlier branch of the reader. |
| Decoder.WordsOfSample | files/usr/local/lib/webradio/SRMpg123.py:268 | `line.split()` of a sample line gives the tag and the two numbers. |
| Decoder.StopLine | files/usr/local/lib/webradio/SRMpg123.py:246-255 | `@P 0` is recognised as the end of the current target. |
| Decoder.Mpg123.constructor | files/usr/local/lib/webradio/SRMpg123.py:21-48 | The wrapper starts with no process, nothing playing, no URL, not muted, at the configured default volume. |
| Decoder.Mpg123.PersistentState | files/usr/local/lib/webradio/SRMpg123.py:68-72 | The saved volume is the volume before muting when muted, and the current volume otherwise. |
| Decoder.Mpg123.SetPersistentState | files/usr/local/lib/webradio/SRMpg123.py:76-84 | A saved volume is restored; without one the configured default applies. |
| Decoder.Mpg123.Create | files/usr/local/lib/webradio/SRMpg123.py:95-112 | Starting the process and the reader sets the clamped volume on the decoder and publishes `vol_set`; play state, URL and mute are kept. |
| Decoder.Mpg123.Destroy | files/usr/local/lib/webradio/SRMpg123.py:202-214 | `QUIT` is sent only when a process exists. |
| Decoder.Mpg123.VolSet | files/usr/local/lib/webradio/SRMpg123.py:302-312 | The volume becomes the clamped value. With a process, the volume is sent, `vol_set` is published and the volume is returned; without one, nothing is sent and `None` is returned. |
| Decoder.Mpg123.VolUp | files/usr/local/lib/webradio/SRMpg123.py:278-286 | The request argument, as text: absent or empty means the configured delta; otherwise it is read as an integer, a negative one counting as 0 (so `"0"` adds nothing), and text that is not an integer raises `ValueError` with nothing changed. The volume rises by the amount, capped at 100; with a process it is sent as `VOLUME`, published as `vol_set` and returned. |
| Decoder.Mpg123.VolDown | files/usr/local/lib/webradio/SRMpg123.py:290-298 | A non-empty request argument (even `"0"`) raises `UnboundLocalError` and changes nothing. Otherwise the volume drops by the delta, floored at 0; with a process it is sent as `VOLUME`, published as `vol_set` and returned. |
| Decoder.Mpg123.MuteOn | files/usr/local/lib/webradio/SRMpg123.py:316-322 | Muting remembers the volume and sets it to 0, which with a process is sent, published as `vol_set` and returned. Muting again sends nothing and returns `None`. |
| Decoder.Mpg123.MuteOff | files/usr/local/lib/webradio/SRMpg123.py:326-331 | Unmuting restores the remembered volume, which with a process is sent, published as `vol_set` and returned. Unmuting when not muted sends nothing and returns `None`. |
| Decoder.Mpg123.MuteToggle | files/usr/local/lib/webradio/SRMpg123.py:335-341 | Toggling flips the mute flag: muting saves the volume and sets 0, unmuting restores the saved volume and keeps it; either way the new volume is sent, published and returned when a process exists. |
| Decoder.MuteRoundTrip | files/usr/local/lib/webradio/SRMpg123.py:316-331 | Muting then unmuting restores the original volume, and reports it when a process exists. |
| Decoder.Mpg123.Stop | files/usr/local/lib/webradio/SRMpg123.py:147-157 | `STOP` is sent, `last` is recorded and an answer is awaited, exactly when something plays and a process exists. The call hangs exactly when it waits and the reader has ended. |
| Decoder.Mpg123.Pause | files/usr/local/lib/webradio/SRMpg123.py:161-171 | `PAUSE` is sent only when there is a current URL, nothing is paused, and a process exists. |
| Decoder.Mpg123.Resume | files/usr/local/lib/webradio/SRMpg123.py:175-185 | `PAUSE` is sent only when paused and a process exists. |
| Decoder.Mpg123.Toggle | files/usr/local/lib/webradio/SRMpg123.py:189-198 | `PAUSE` is sent only while playing with a process. |
| Decoder.Mpg123.Play | files/usr/local/lib/webradio/SRMpg123.py:116-143 | Without a process, nothing happens. The same target again is not restarted (a file is only asked for `SAMPLE`). Otherwise a playing target is stopped with `last` false and its `eof` published, and the new target is loaded. The result says whether a new target was loaded and the call returned; the call hangs exactly when it waits (after `SAMPLE`, `STOP` or `LOAD`) and the reader has ended. |
| Decoder.Mpg123.Resample | files/usr/local/lib/webradio/SRMpg123.py:122-127 | For the target already playing, a file is sent `SAMPLE` and its answer awaited (hanging when the reader has ended); a stream gets nothing. |
| Decoder.Mpg123.Replace | files/usr/local/lib/webradio/SRMpg123.py:128 | The stop inside `play`: `STOP` with `last` false; the decoder's `@P 0` then publishes the old target's `eof` and clears the play state, unless the reader has ended and the call hangs with the state as it was. |
| Decoder.Mpg123.Send | files/usr/local/lib/webradio/SRMpg123.py:130-141 | The new target and `last` are remembered and the load command is sent; the call returns exactly when the reader is alive to answer. |
| Decoder.Mpg123.HandleLine | files/usr/local/lib/webradio/SRMpg123.py:225-272 | Each line's effect on play, pause, URL and the published events: `eof` with name and `last` on `@P 0` only while playing; `pause` and `play` carrying the URL; `icy_meta`, `icy_name` and `id3` values; `sample` carrying elapsed time and pause. |
| Events.Deliver | files/usr/local/lib/webradio/SRRadioEvents.py:111-115 | `put_nowait` on every consumer adds to queues with room. No queue exceeds its size of 20. |
| Events.Survivors | files/usr/local/lib/webradio/SRRadioEvents.py:117-121 | Dropping stale consumers keeps only registered ids, and keeps distinct consumers distinct. |
| Events.TicksFromMod | files/usr/local/lib/webradio/SRRadioEvents.py:102 | After k empty polls the counter is `(count + k) mod 15`. |
| Events.TickMod | files/usr/local/lib/webradio/SRRadioEvents.py:102 | One empty poll advances the counter by one, modulo 15. |
| Events.KeepAliveEvery | files/usr/local/lib/webradio/SRRadioEvents.py:102-107 | With no input, a keep-alive event is produced on the k-th poll exactly when k is a multiple of 15. |
| Events.DistributeAll | files/usr/local/lib/webradio/SRRadioEvents.py:109-121 | Distributing a run of events keeps the number of queues and the registry's handles valid. |
| Events.DistributeInOrder | files/usr/local/lib/webradio/SRRadioEvents.py:109-121 | A consumer with room for all the events stays registered and receives them in order, after what it had. |
| Events.DeliverToRoom | files/usr/local/lib/webradio/SRRadioEvents.py:111-121 | A consumer whose queue is not full receives the event and is not dropped. |
| Events.DistributeUnowned | files/usr/local/lib/webradio/SRRadioEvents.py:111-113 | A queue no registered consumer owns is never written. |
| Events.RadioEvents.constructor | files/usr/local/lib/webradio/SRRadioEvents.py:24-35 | The multiplexer starts with empty input, no consumers and the counter at 0. |
| Events.RadioEvents.Push | files/usr/local/lib/webradio/SRRadioEvents.py:48-51 | An event is appended to the input queue. |
| Events.RadioEvents.AddConsumer | files/usr/local/lib/webradio/SRRadioEvents.py:55-72 | A known id gets its existing queue back, with nothing changed. A new id gets a fresh queue holding the formatted `version` event and then the `state` event. |
| Events.RadioEvents.DelConsumer | files/usr/local/lib/webradio/SRRadioEvents.py:80-86 | A registered consumer gets `None` in its queue and is removed. The call blocks exactly when that queue is full. |
| Events.RadioEvents.Get | files/usr/local/lib/webradio/SRRadioEvents.py:97 | Taking from a queue returns its first element and removes it; from an empty queue it returns nothing. |
| Events.RadioEvents.Fanout | files/usr/local/lib/webradio/SRRadioEvents.py:109-116 | Every consumer with room receives the item. The stale consumers are exactly those whose queue was full. |
| Events.RadioEvents.Step | files/usr/local/lib/webradio/SRRadioEvents.py:95-121 | One poll: an input event is consumed and resets the counter; otherwise the counter ticks, and on reaching 0 a keep-alive with the current time is distributed. |
| Events.RadioEvents.Distribute | files/usr/local/lib/webradio/SRRadioEvents.py:109-121 | The event is formatted, fanned out, and stale consumers are removed. |
| Events.RadioEvents.Stop | files/usr/local/lib/webradio/SRRadioEvents.py:123-128 | On shutdown every queue with room gets `None`, once. |
| Formatter.Fill | files/usr/local/lib/webradio/SREventFormatter.py:42-44 | `str.format` fails exactly when a named field is missing, and the error names a field of the template. |
| Formatter.Format | files/usr/local/lib/webradio/SREventFormatter.py:36-46 | Formatting fails only for a known kind whose template has a field the event lacks. |
| Formatter.FmtMapKinds | files/usr/local/lib/webradio/SREventFormatter.py:17-32 | The template table has exactly the fourteen kinds of the source. |
| Formatter.FormatUnknownKind | files/usr/local/lib/webradio/SREventFormatter.py:45-46 | An event of an unknown kind is rendered with `%r`. |
| Formatter.UnknownKinds | files/usr/local/lib/webradio/SREventFormatter.py:17-32 | `state`, `sample` and `sys` have no template. |
| Formatter.FormatEof | files/usr/local/lib/webradio/SREventFormatter.py:30 | An `eof` event reads `<name> finished`. |
| Formatter.FormatKeepAlive | files/usr/local/lib/webradio/SREventFormatter.py:29 | A keep-alive reads `current time: <time>`. |
| Formatter.FormatValueOnly | files/usr/local/lib/webradio/SREventFormatter.py:43-44 | For a kind whose template uses only `{value}`, a non-dict value is rendered as the template's prefix followed by `str(value)`. |
| Formatter.FillValue | files/usr/local/lib/webradio/SREventFormatter.py:44 | Filling `prefix{value}` yields the prefix and `str(value)`. |
| Formatter.FillField | files/usr/local/lib/webradio/SREventFormatter.py:44 | Filling `{value}` alone yields `str(value)`. |
| Formatter.ValueOnlyKinds | files/usr/local/lib/webradio/SREventFormatter.py:18-31 | The eight kinds whose template is a literal prefix and `{value}`. |
| Store.GetSetAll | files/usr/local/lib/webradio/SRWebRadio.py:182-192 | After a top-level update, each key given reads as given and every other key is as before. |
| Store.SetAllKeys | files/usr/local/lib/webradio/SRWebRadio.py:182-192 | A top-level update keeps keys unique and adds exactly the given keys. |
| Store.NestGet | files/usr/local/lib/webradio/SRWebRadio.py:193-197 | Setting a key of a section creates or updates that section and keeps the section's other keys and all other sections. |
| Store.SetSame | files/usr/local/lib/webradio/SRWebRadio.py:252 | Writing a key's own value back changes nothing. |
| Store.RestoreSaved | files/usr/local/lib/webradio/SRWebRadio.py:239-252 | Restoring the saved persistent state is the identity. Restoring any map changes only `mode`. |
| Store.WebRadio.constructor | files/usr/local/lib/webradio/SRWebRadio.py:73 | The state starts as `{mode: radio}`. |
| Store.WebRadio.GetVersion | files/usr/local/lib/webradio/SRWebRadio.py:26 | The version is `Simone`, and the `version` event carrying it is formatted as `pi-webradio version Simone`. |
| Store.WebRadio.UpdateState | files/usr/local/lib/webradio/SRWebRadio.py:179-200 | Given entries, all of them are written. Given a section and key, that key is set, and `TypeError` is raised (state unchanged) when the section holds a non-dict. The state is published only when asked and the update succeeded. |
| Store.WebRadio.Record | files/usr/local/lib/webradio/SRWebRadio.py:193-197 | A component's `update_state(section, key, value, publish=False)` changes only that entry and publishes nothing. |
| Store.WebRadio.GetPersistentState | files/usr/local/lib/webradio/SRWebRadio.py:239-243 | Only `mode` is saved, with its current value. |
| Store.WebRadio.SetPersistentState | files/usr/local/lib/webradio/SRWebRadio.py:247-252 | `mode` is restored when the saved map has it. |
| Store.WebRadio.Subscribe | files/usr/local/lib/webradio/SRRadioEvents.py:55-72 | A new consumer's queue starts with version `Simone` and the current state. |
| Paths.PathString | files/usr/local/lib/webradio/SRPlayer.py:266-269 | A path written out is absolute. |
| Paths.Walk | files/usr/local/lib/webradio/SRPlayer.py:266-269 | Resolving `.`/`..`/empty parts keeps a clean path clean. |
| Paths.Normpath | files/usr/local/lib/webradio/SRPlayer.py:266-269 | `normpath` yields a path with no `.`, `..` or empty components. |
| Paths.WalkClean | files/usr/local/lib/webradio/SRPlayer.py:266-269 | Clean components are appended unchanged. |
| Paths.SplitPathString | files/usr/local/lib/webradio/SRPlayer.py:266-269 | Splitting a written path on `/` gives back its components after a leading empty one. |
| Paths.ComponentsAppend | files/usr/local/lib/webradio/SRPlayer.py:266 | Writing two concatenated paths is concatenating their texts. |
| Paths.JoinChild | files/usr/local/lib/webradio/SRPlayer.py:269 | `os.path.join(dir, name)` is the path of the child. |
| Paths.WalkConcat | files/usr/local/lib/webradio/SRPlayer.py:266-269 | Resolving parts in two runs equals resolving them at once. |
| Paths.NormpathOfString | files/usr/local/lib/webradio/SRPlayer.py:266-269 | `normpath` of a clean path's text is that path. |
| Paths.CommonPath | files/usr/local/lib/webradio/SRPlayer.py:146 | `commonpath` is a prefix of both paths and is the longest one. |
| Paths.CommonPathIsRoot | files/usr/local/lib/webradio/SRPlayer.py:146 | `commonpath([root, p]) == root` exactly when `p` lies below the root. |
| Paths.Dirname | files/usr/local/lib/webradio/SRPlayer.py:163 | `dirname` drops the last component. |
| Paths.BasenameOfString | files/usr/local/lib/webradio/SRPlayer.py:203 | The basename of a path's text is its last component. |
| Paths.CheckDirUnderRoot | files/usr/local/lib/webradio/SRPlayer.py:138-151 | `_check_dir` accepts exactly existing paths below the root. |
| Paths.CheckFileUnderRoot | files/usr/local/lib/webradio/SRPlayer.py:155-163 | `_check_file` accepts exactly existing files whose directory exists below the root, and such a file is strictly below the root. |
| Paths.Clock | files/usr/local/lib/webradio/SRPlayer.py:170-171 | `divmod` splits seconds into hours, minutes below 60 and seconds below 60 that add back up. |
| Paths.PpTime | files/usr/local/lib/webradio/SRPlayer.py:167-175 | Under an hour the text is `mm:ss` (5 characters); from an hour on it is `hh:mm:ss` or longer. |
| Paths.ParseTime | files/usr/local/lib/webradio/SRPlayer.py:167-175 | The reading of `mm:ss` / `hh:mm:ss` back into seconds; any accepted text has a `:`. |
| Paths.PpTimeRoundTrip | files/usr/local/lib/webradio/SRPlayer.py:167-175 | The printed time denotes exactly the given number of seconds. |
| Player.Resolve | files/usr/local/lib/webradio/SRPlayer.py:265-269 | A selected directory is always normalised. |
| Player.ResolveFromRoot | files/usr/local/lib/webradio/SRPlayer.py:265-266 | A path starting with `/` is taken below the root. |
| Player.ResolveChild | files/usr/local/lib/webradio/SRPlayer.py:268-269 | A plain name selects the child of the current directory. |
| Player.ResolveParent | files/usr/local/lib/webradio/SRPlayer.py:268-269 | `..` selects the parent of the current directory. |
| Player.CurDirRelative | files/usr/local/lib/webradio/SRPlayer.py:284 | The published directory is the current directory relative to the root, followed by `/`. |
| Player.Children | files/usr/local/lib/webradio/SRPlayer.py:393 | `os.listdir` gives exactly the entries directly inside the directory. |
| Player.MapNames | files/usr/local/lib/webradio/SRPlayer.py:417-421 | One duration per file, in the order of the files. |
| Player.Sift | files/usr/local/lib/webradio/SRPlayer.py:393-398 | Files ending in `.mp3` are collected as tracks, and every non-file as a directory, each once. |
| Player.Scan | files/usr/local/lib/webradio/SRPlayer.py:386-402 | The listing: `..` when below the root and the subdirectories, sorted together; the `.mp3` files sorted. Nothing else appears. |
| Player.ScanStep | files/usr/local/lib/webradio/SRPlayer.py:394-398 | Classifying one more entry keeps the listing exact. |
| Player.Playlist | files/usr/local/lib/webradio/SRPlayer.py:316-325 | Without a listing, `TypeError`. A start file not in the listing gives `ValueError`. No start gives all files. Otherwise the files from the first occurrence of the start file on. |
| Player.FromStart | files/usr/local/lib/webradio/SRPlayer.py:320-323 | The suffix of the file list beginning at the first occurrence of the start file. |
| Player.FirstIndex | files/usr/local/lib/webradio/SRPlayer.py:320 | `list.index` finds the first occurrence. |
| Player.DecoderEofAdvances | files/usr/local/lib/webradio/SRPlayer.py:354-357 | The decoder's `eof` for the file just started moves the loop on, and an `eof` naming another file does not. |
| Player.Player.constructor | files/usr/local/lib/webradio/SRPlayer.py:19-55 | The player starts in its default directory with no file, no listing and no thread. |
| Player.Player.GetDirinfo | files/usr/local/lib/webradio/SRPlayer.py:383-421 | Listing fails exactly when the path does not exist or is not a directory, leaving only a partial listing. Otherwise the listing is exact and the current file is chosen: the old file's basename on the initial listing, else the first track (recorded as `last_file`), else none. |
| Player.Player.ChooseCurrent | files/usr/local/lib/webradio/SRPlayer.py:405-414 | The choice of the current file and what is recorded as `last_file`. |
| Player.Player.SelectDir | files/usr/local/lib/webradio/SRPlayer.py:250-298 | While the lock is held the call blocks. An invalid directory raises `ValueError` and changes nothing. Otherwise the directory becomes current, `dir_select` is published and `last_dir` recorded, and the cached listing is reused for the same directory, with the current file kept. Else a fresh listing is made: its first track becomes the current file and is recorded as `last_file` after `last_dir` (or `last_file` is cleared when there is no track); an `OSError` keeps the current file, records only `last_dir` and leaves the lock held. |
| Player.Player.Announce | files/usr/local/lib/webradio/SRPlayer.py:284-288 | Publishes `dir_select` and records `last_dir`. |
| Player.Player.Relist | files/usr/local/lib/webradio/SRPlayer.py:291-293 | A fresh listing gets the published directory as `cur_dir`, and fails exactly when the path is missing or is not a directory. On success its first track becomes the current file and `last_file` (or `last_file` is cleared); on failure the lock stays held and the current file and settings are kept. |
| Player.Player.PlayFile | files/usr/local/lib/webradio/SRPlayer.py:179-214 | An invalid or missing file raises `ValueError` and changes nothing. Otherwise, in order: the file becomes current (marked in the listing), `file_info` is published, the backend plays it, `last_file` is recorded only when a new file started, and `time` is recorded. When the backend hangs in `play`, nothing is recorded and the call does not return (`Err("blocked")`). |
| Player.Player.Choose | files/usr/local/lib/webradio/SRPlayer.py:185-193 | A name is accepted exactly when it is a valid file (relative names are taken in the current directory) or, with no name, when a current file is set. |
| Player.Player.Start | files/usr/local/lib/webradio/SRPlayer.py:202-213 | `file_info` with the duration and its printed form is published before playing; whether the backend hung is passed on. |
| Player.Player.Load | files/usr/local/lib/webradio/SRPlayer.py:208-213 | The backend plays the file; `last_file` is recorded only if it started, and `time` whenever `play` returned. |
| Player.Player.Begin | files/usr/local/lib/webradio/SRPlayer.py:337 | The thread registers as consumer `_play_dir` and receives the version and state first. |
| Player.Player.PlayNext | files/usr/local/lib/webradio/SRPlayer.py:341-345 | Past the last file the thread cleans up. Otherwise the next file is played with `last` true only for the final one, its `file_info` and the decoder's events are published, `last_file` is recorded only when the backend loads it and `time` whenever `play` returns, and the thread waits for its `eof`; an invalid file ends the thread with an exception and changes nothing, and a `play` that hangs leaves the thread hanging and records nothing. A thread that ends here through its clean-up has released its consumer and stopped the backend. |
| Player.Player.Poll | files/usr/local/lib/webradio/SRPlayer.py:346-362 | The stop signal ends the loop. An empty queue keeps waiting; otherwise the first item is taken off the queue: this file's `eof` advances, another event is skipped, `None` ends the loop. A thread that ends here through its clean-up has released its consumer and stopped the backend. |
| Player.Player.Cleanup | files/usr/local/lib/webradio/SRPlayer.py:364-368 | The thread unregisters (hanging, with nothing changed, when its own queue is full), then stops the backend; it hangs also when that `stop` waits for a reader that has ended. When it does not hang, the `_play_dir` consumer is gone and `STOP` is the last command sent to a playing backend. |
| Player.Player.DirStep | files/usr/local/lib/webradio/SRPlayer.py:341-368 | Once the stop signal is set, every step brings the thread closer to its end; a step that ends the thread normally leaves its consumer released and the backend stopped. |
| Player.Player.JoinThread | files/usr/local/lib/webradio/SRPlayer.py:311-313 | Joining after the stop signal always ends the thread; it returns exactly when the thread did not hang. A running thread that ends normally has removed its `_play_dir` consumer and sent `STOP` to a playing backend; a thread already ended is left as it was. |
| Player.Player.PlayDir | files/usr/local/lib/webradio/SRPlayer.py:302-330 | A running thread is stopped and joined first (blocking when it hangs). The file list then comes from the listing as `Playlist` states, and a new thread starts on it. |
| Player.Player.Launch | files/usr/local/lib/webradio/SRPlayer.py:315-330 | Starts the thread on the playlist with the stop signal cleared, or raises the playlist's error with nothing started. |
| Player.Player.PlayerStop | files/usr/local/lib/webradio/SRPlayer.py:218-225 | A thread is signalled and joined, and the call hangs exactly when the thread does; when the thread ends normally its consumer is removed and the backend is stopped (`STOP` is the last command sent while it plays), and a thread that had already ended is left as it was. Without a thread the backend is stopped directly, and the call hangs exactly when that `stop` does. |
| Player.Player.Pause | files/usr/local/lib/webradio/SRPlayer.py:229-232 | Delegates to the decoder's pause. |
| Player.Player.Resume | files/usr/local/lib/webradio/SRPlayer.py:236-239 | Delegates to the decoder's resume. |
| Player.Player.Toggle | files/usr/local/lib/webradio/SRPlayer.py:243-246 | Delegates to the decoder's toggle. |
| Radio.Position | files/usr/local/lib/webradio/SRRadio.py:129 | `channels[nr-1]` succeeds exactly for `-len <= nr-1 < len`, with Python's negative indexing. |
| Radio.NextPrev | files/usr/local/lib/webradio/SRRadio.py:161-184 | Next and previous stay within 1..n and undo each other. |
| Radio.ForwardCounts | files/usr/local/lib/webradio/SRRadio.py:161-170 | Before the wrap, k steps forward add k. |
| Radio.ForwardCompose | files/usr/local/lib/webradio/SRRadio.py:161-170 | Stepping a then b times equals stepping a + b times. |
| Radio.ForwardFullCircle | files/usr/local/lib/webradio/SRRadio.py:161-170 | n steps forward on n channels come back to the start. |
| Radio.Radio.constructor | files/usr/local/lib/webradio/SRRadio.py:22-35 | No channel is current and no last channel is set. |
| Radio.Radio.ReadChannels | files/usr/local/lib/webradio/SRRadio.py:91-112 | Channels are numbered 1, 2, ... in file order, with the logo made relative to `images` when it exists and `None` otherwise. A failed load leaves the list empty. |
| Radio.Radio.GetChannel | files/usr/local/lib/webradio/SRRadio.py:116-129 | Returns the requested channel; out of range raises `IndexError`; a negative number counts from the end; in a numbered list the result's number is in 1..n. |
| Radio.Radio.Outcome | files/usr/local/lib/webradio/SRRadio.py:140-157 | What playing a channel number returns: the channel looked up, `IndexError`, or a hang when the backend would wait for an ended reader. |
| Radio.Radio.GetChannelNumber | files/usr/local/lib/webradio/SRRadio.py:100-108 | Asking for channel nr returns the channel numbered nr. |
| Radio.Radio.DefaultIsLast | files/usr/local/lib/webradio/SRRadio.py:116-127 | A request for channel 0 or for no channel finds the last channel played, or channel 1 when none was played. |
| Radio.Radio.PlayChannel | files/usr/local/lib/webradio/SRRadio.py:140-157 | An argument that is not a number raises `ValueError`. A lookup error changes nothing. Otherwise the channel is played and returned. When the backend starts it, it becomes current and last, `channel_nr` is recorded and `radio_play_channel` follows the decoder's events; otherwise current, last, settings and events are unchanged. When the backend hangs in `play`, nothing is recorded and the call does not return (`Err("blocked")`). |
| Radio.Radio.Switch | files/usr/local/lib/webradio/SRRadio.py:148-156 | On start: the channel is recorded under `channel_nr`, `radio_play_channel` is published after the decoder's events, and both numbers are set. Otherwise (not started, or hung in `play`) nothing changes. |
| Radio.Radio.PlayNext | files/usr/local/lib/webradio/SRRadio.py:161-170 | Plays the channel after the current one, wrapping to 1, with the same effects as playing that number. From "off" it plays the default channel. |
| Radio.Radio.PlayPrev | files/usr/local/lib/webradio/SRRadio.py:175-184 | Plays the channel before the current one, wrapping to the last, with the same effects as playing that number. From "off" it plays the default channel. |
| Radio.Radio.Off | files/usr/local/lib/webradio/SRRadio.py:188-193 | No channel is current, the last channel is kept, and the backend is sent `STOP` while it plays. The call hangs (`Err("blocked")`) exactly when `stop` waits for a reader that has ended. |
| Radio.Radio.On | files/usr/local/lib/webradio/SRRadio.py:197-204 | Plays the default channel only when the radio is off, with the effects of playing it; otherwise nothing changes. The lookup's `IndexError`, or a hang in `play`, is passed to the caller with nothing changed. |
| Radio.Radio.Pause | files/usr/local/lib/webradio/SRRadio.py:208-212 | Delegates to the decoder's pause. |
| Radio.Radio.Resume | files/usr/local/lib/webradio/SRRadio.py:216-220 | Delegates to the decoder's resume. |
| Radio.Radio.Toggle | files/usr/local/lib/webradio/SRRadio.py:224-228 | Delegates to the decoder's toggle. |
| Radio.Radio.GetPersistentState | files/usr/local/lib/webradio/SRRadio.py:71-75 | Only `channel_nr`, the last channel, is saved. |
| Radio.Radio.SetPersistentState | files/usr/local/lib/webradio/SRRadio.py:79-87 | A saved channel becomes the last channel, which is recorded in the state without publishing. |
| Radio.PersistRoundTrip | files/usr/local/lib/webradio/SRRadio.py:71-87 | Saving and restoring keeps the last channel. |
| Api.Register | files/usr/local/lib/webradio/SRRadio.py:58-67 | Attaching an operation adds its name and leaves the other attributes. |
| Api.ExecRegistered | files/usr/local/lib/webradio/SRApi.py:28-30 | A request for a registered name runs the operation registered last. |
| Api.ExecOthers | files/usr/local/lib/webradio/SRApi.py:25-33 | Registering one name does not change how other names are dispatched. |
| Api.Names | files/usr/local/lib/webradio/SRApi.py:40 | The attribute names, each once. |
| Api.Dir | files/usr/local/lib/webradio/SRApi.py:40 | `dir()` lists every attribute once, in sorted order. |
| Api.KeepPublic | files/usr/local/lib/webradio/SRApi.py:40-42 | Keeps exactly the callable, non-underscore names not defined by `Base`, preserving sorted order. |
| Api.ApiListExact | files/usr/local/lib/webradio/SRApi.py:37-42 | The API list is sorted without duplicates, holds exactly the public operations, and dispatches every listed name to its operation. |
| Api.ApiListRegister | files/usr/local/lib/webradio/SRApi.py:37-42 | After registering an operation, it is listed exactly when its name is public, and nothing else is added or removed. |
| Sorting.Sort | files/usr/local/lib/webradio/SRPlayer.py:401-402 | `list.sort()` on names: ordered, and a permutation of the input. |
| Sorting.Insert | files/usr/local/lib/webradio/SRPlayer.py:401-402 | Inserting keeps the list ordered and adds exactly one element. |
| Sorting.SortDistinct | files/usr/local/lib/webradio/SRApi.py:40 | Sorting distinct names gives a strictly increasing list of the same names. |
| Sorting.LessTransitive | files/usr/local/lib/webradio/SRPlayer.py:401-402 | String order is transitive. |
| Sorting.LessTotal | files/usr/local/lib/webradio/SRPlayer.py:401-402 | String order is total. |
| Sorting.LessIrreflexive | files/usr/local/lib/webradio/SRPlayer.py:401-402 | String order is irreflexive. |
| Text.Split | files/usr/local/lib/webradio/SRMpg123.py:242 | `str.split(sep)` yields at least one part, none containing the separator. |
| Text.SplitCons | files/usr/local/lib/webradio/SRMpg123.py:242 | Splitting at a first separator peels off the text before it. |
| Text.RStripNewlines | files/usr/local/lib/webradio/SRMpg123.py:240 | `rstrip("\n")` removes exactly the trailing newlines. |
| Text.Basename | files/usr/local/lib/webradio/SRMpg123.py:134 | `basename` is the slash-free suffix after the last `/`. |
| Text.BasenameJoin | files/usr/local/lib/webradio/SRPlayer.py:406-409 | The basename of `join(dir, name)` is the name. |
| Text.Words | files/usr/local/lib/webradio/SRMpg123.py:268 | `str.split()` yields non-empty words without whitespace. |
| Text.WordsCons | files/usr/local/lib/webradio/SRMpg123.py:268 | A word followed by whitespace is split off first. |
| Text.NatToString | files/usr/local/lib/webradio/SRPlayer.py:173-175 | Decimal rendering is all digits. |
| Text.ParseNatToString | files/usr/local/lib/webradio/SRMpg123.py:270 | `int()` of a rendered number gives the number back. |
| Text.ParseIntToString | files/usr/local/lib/webradio/SRRadio.py:120 | `int()` of a rendered integer, negative ones included, gives it back. |
| Text.Pad2 | files/usr/local/lib/webradio/SRPlayer.py:173-175 | `{:02d}` gives at least two digits, exactly two below 100, that read back as the number. |
| PyValues.Get | files/usr/local/lib/webradio/SRWebRadio.py:194 | A key is found exactly when present, with its stored value. |
| PyValues.Set | files/usr/local/lib/webradio/SRWebRadio.py:195-197 | Assignment keeps the keys' order and appends a new key at the end. |
| PyValues.GetSet | files/usr/local/lib/webradio/SRWebRadio.py:195-197 | After `d[k] = v`, `d[k]` is `v` and every other key is unchanged. |
| PyValues.SetKeys | files/usr/local/lib/webradio/SRWebRadio.py:195-197 | Assignment keeps keys unique and adds exactly `k`. |
| PyValues.ToStr | files/usr/local/lib/webradio/SREventFormatter.py:42-44 | `str()` of a string is itself; `str()` of an integer reads back with `int()` as the same integer; anything else is its `repr`. |

`Radio.Requested` and `Api.Exec` have no rows: their contracts only spell out their case split. What they mean is stated by `Radio.Radio.GetChannel` and `Radio.Radio.DefaultIsLast` for the first, and by `Api.ExecRegistered`, `Api.ExecOthers` and `Api.ApiListExact` for the second.

## Left out

- Threads, locks and timing are not modelled as such.
  - The event thread and the `_play_dir` thread become step methods (`Step`, `DirStep`) that a caller runs.
  - A call that would block forever becomes an explicit outcome: the `blocked` result of `Mpg123.Play` and `Mpg123.Stop`, `Err("blocked")` from the operations built on them and from selecting a directory, or the `Hung` thread state. Nothing the source does after the blocking wait happens in the model.
  - The waits of `Mpg123.Pause`, `Resume` and `Toggle` return even when the reader has ended; nothing follows them in their callers.
  - The one-second timeouts of the queues and of the stop signal are not modelled.
- The `mpg123` process and `mp3info` are not run. Commands are the `stdin` sequence, output lines are the argument of `HandleLine`, and `mp3info -p %S` is the `duration` parameter.
- `Text.IsSpace`: only ASCII whitespace separates words; Python's `str.split()` also splits on `\x1c`-`\x1f`, `\x85`, `\xa0` and the other Unicode whitespace, which the model treats as ordinary characters.
- A `readline` that raises (a decode error), which the reader skips, is not modelled: lines reach `HandleLine` already decoded.
- The clock is the `now` argument of `RadioEvents.Step`.
- Reading the channel file and the settings file (JSON) is left out.
  - `ReadChannels` receives the loaded list, or `None` when loading fails.
  - Whether a logo exists is the `hasLogo` parameter.
  - A channel entry with a missing key, which would make the source stop numbering midway, is not modelled.
  - Saving and loading all objects' persistent state (`_save_state`, `_load_state`) is left out; each object's own get/set pair is modelled.
- Floating point is not modelled: `@SAMPLE`'s elapsed time is the exact ratio `Ratio(n, d)`.
- `repr` output is modelled only for the values the model builds; string escaping inside `repr` is not modelled.
- `Decoder.Mpg123.Play`: the wait for the decoder's answer to `LOAD` (or `SAMPLE`) is not awaited inside the call; `Play` returns once the command is written, and the answer (`@P 2`, which publishes `play`) is a later `HandleLine`. In the source `play` returns only after that answer.
- `Radio.Radio.Switch`: because of the above, `radio_play_channel` is published before the decoder's `play` event, where the source publishes it after; the same holds for the `last_file` and `time` records of `Player.Player.Load`.
- `Decoder.Mpg123.VolSet`: takes the number `int()` produced; a request argument that `int()` rejects (`ValueError`) is not modelled. For `VolUp`, `int()` is modelled for optionally signed decimal digits; the blanks and underscores Python also accepts are not.
- `Radio.Radio.PlayChannel`: a request argument that `int()` cannot parse is `None`, which gives `ValueError` as in the source; the parsing of request strings itself is left out.
- `radio_get_channels` is left out: it returns copies of the channel list, and the model's channels are immutable values.
- State aliasing is not modelled.
  - A `state` event carries the state as a value, where the source shares one mutable dictionary.
  - The radio records the channel dictionary it returns, so later changes to that dictionary are not reflected.
- The player's `_init_state`, its persistent state, the cover-file lookup, `_init_thread` joins, and waiting for the web server are left out; they depend on start-up threads and configuration files.
- The `sys_*` shutdown and reboot operations and the Bluetooth stubs are left out: they call the operating system.
- The `register_apis` methods are represented by `Api.Register`; the exact list of names each component registers is not reproduced.
- `Api.Dir`: `dir()` is modelled as the object's own attribute names sorted; attributes inherited from `object` are not included.
- `Events.RadioEvents.AddConsumer`: the `except` path that removes a consumer whose first two events cannot be queued is unreachable with a queue size of 20, and is not modelled.
- `Store.WebRadio.UpdateState`: in the source's entry loop, the test `isinstance(s, dict)` on a key can never hold, so only the plain overwrite branch is modelled.
- `Player.Resolve`: when the root is `/`, the source's `normpath("/" + "/x")` keeps a leading `//`; paths are modelled as component lists, so that spelling is not distinguished.
- `Store.WebRadio.Record`: a `TypeError` raised inside a component's `update_state` call would propagate in the source; the model keeps the state unchanged and lets the caller continue.
