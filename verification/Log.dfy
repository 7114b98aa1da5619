/**
 The redo log of kernel/log.c: the on-disk header, the block writes that commit and
 recovery issue, and why stopping them anywhere leaves an all-or-nothing disk.

 A crash keeps any prefix of the block writes issued so far; one block write is atomic.
 */
module Log {
  import opened Basics
  import opened Blocks

  const LOGBLOCKS: nat := 30

  type Disk = seq<Block>
  datatype Write = Write(addr: int, data: Block)

  // ---------- the header block ----------

  /** Stores ws in consecutive words of b, the first at word j. */
  function PutWords(b: Block, j: nat, ws: seq<int>): (r: Block)
    requires 4 * (j + |ws|) <= |b.bytes|
    ensures |r.bytes| == |b.bytes|
  {
    if ws == [] then b
    else PutWord(PutWords(b, j, ws[..|ws|-1]), j + |ws| - 1, ws[|ws|-1])
  }

  /** The header block that write_head stores over the old one, of which only the first words change. */
  function EncodeHeader(b: Block, lh: seq<int>): (r: Block)
    requires |b.bytes| == BSIZE && |lh| <= LOGBLOCKS
    ensures |r.bytes| == BSIZE
  {
    PutWords(PutWord(b, 0, |lh|), 1, lh)
  }

  predicate ReadableHeader(b: Block) {
    |b.bytes| == BSIZE && 0 <= GetWord(b, 0) <= LOGBLOCKS
  }

  function DecodeHeader(b: Block): (lh: seq<int>)
    requires ReadableHeader(b)
  {
    seq(GetWord(b, 0), i requires 0 <= i < LOGBLOCKS => GetWord(b, i + 1))
  }

  ghost predicate IsHeader(b: Block, lh: seq<int>) {
    ReadableHeader(b) && DecodeHeader(b) == lh
  }

  ghost predicate AreWords(ws: seq<int>) {
    forall i :: 0 <= i < |ws| ==> 0 <= ws[i] < TWO32
  }

  lemma {:induction false} GetPutWords(b: Block, j: nat, ws: seq<int>, k: nat)
    requires 4 * (j + |ws|) <= |b.bytes| && 4 * k + 3 < |b.bytes| && AreWords(ws)
    ensures GetWord(PutWords(b, j, ws), k) == if j <= k < j + |ws| then ws[k-j] else GetWord(b, k)
  {
    if ws != [] {
      GetPutWords(b, j, ws[..|ws|-1], k);
      GetPutWord(PutWords(b, j, ws[..|ws|-1]), j + |ws| - 1, ws[|ws|-1], k);
    }
  }

  /** Whatever the header block held before, read_head gets back what write_head stored. */
  lemma HeaderRoundTrip(b: Block, lh: seq<int>)
    requires |b.bytes| == BSIZE && |lh| <= LOGBLOCKS && AreWords(lh)
    ensures IsHeader(EncodeHeader(b, lh), lh)
  {
    HeaderWord(b, lh, 0);
    forall i | 0 <= i < |lh| ensures GetWord(EncodeHeader(b, lh), i + 1) == lh[i] {
      HeaderWord(b, lh, i + 1);
    }
  }

  lemma HeaderWord(b: Block, lh: seq<int>, k: nat)
    requires |b.bytes| == BSIZE && |lh| <= LOGBLOCKS && AreWords(lh) && k <= |lh|
    ensures GetWord(EncodeHeader(b, lh), k) == if k == 0 then |lh| else lh[k-1]
  {
    GetPutWords(PutWord(b, 0, |lh|), 1, lh, k);
    GetPutWord(b, 0, |lh|, 0);
  }

  // ---------- block writes and what they leave on the disk ----------

  predicate InLog(start: nat, b: int) {
    start <= b <= start + LOGBLOCKS
  }

  /** The disk after one block write; the device has no block beyond its end. */
  function WriteBlock(d: Disk, w: Write): (r: Disk)
    ensures |r| == |d|
  {
    if 0 <= w.addr < |d| then d[w.addr := w.data] else d
  }

  ghost function Apply(d: Disk, ws: seq<Write>): (r: Disk)
    ensures |r| == |d|
  {
    if ws == [] then d else WriteBlock(Apply(d, ws[..|ws|-1]), ws[|ws|-1])
  }

  lemma ApplySnoc(d: Disk, ws: seq<Write>, w: Write)
    ensures Apply(d, ws + [w]) == WriteBlock(Apply(d, ws), w)
  {
    assert (ws + [w])[..|ws|] == ws;
  }

  lemma ApplyPrefix(d: Disk, ws: seq<Write>, k: nat)
    requires k < |ws|
    ensures Apply(d, ws[..k+1]) == WriteBlock(Apply(d, ws[..k]), ws[k])
  {
    TakeOneMore(ws, k);
    ApplySnoc(d, ws[..k], ws[k]);
  }

  /** The logged block numbers are home blocks of the disk, outside the log area. */
  ghost predicate GoodLog(d: Disk, start: nat, lh: seq<int>)
  {
    && start + LOGBLOCKS < |d| <= TWO32
    && |lh| <= LOGBLOCKS
    && forall i :: 0 <= i < |lh| ==> 0 <= lh[i] < |d| && !InLog(start, lh[i])
  }

  /** Every block that lh names has its wanted copy in the log, and every other home block is in place. */
  ghost predicate Stands(d: Disk, start: nat, lh: seq<int>, want: Disk)
  {
    && |want| == |d|
    && GoodLog(d, start, lh)
    && (forall i :: 0 <= i < |lh| ==> d[start+1+i] == want[lh[i]])
    && (forall b :: 0 <= b < |d| && !InLog(start, b) && b !in lh ==> d[b] == want[b])
  }

  /** The disk stands for the home blocks `want`: this is what recovery will make of it. */
  ghost predicate Represents(d: Disk, start: nat, want: Disk)
  {
    && start + LOGBLOCKS < |d|
    && ReadableHeader(d[start])
    && Stands(d, start, DecodeHeader(d[start]), want)
  }

  /** One write of contents[i] to the home block lh[i], in order. */
  function HomeWrites(lh: seq<int>, contents: seq<Block>): (ws: seq<Write>)
    requires |contents| == |lh|
  {
    seq(|lh|, i requires 0 <= i < |lh| => Write(lh[i], contents[i]))
  }

  /** The writes of install_trans: the home blocks that lh names get what the log holds. */
  function InstallWrites(d: Disk, start: nat, lh: seq<int>): (ws: seq<Write>)
    requires start + LOGBLOCKS < |d| && |lh| <= LOGBLOCKS
  {
    HomeWrites(lh, d[start+1..start+1+|lh|])
  }

  /** The writes of recover_from_log: install whatever the header names, then clear the header. */
  function RecoveryWrites(d: Disk, start: nat): (ws: seq<Write>)
    requires start + LOGBLOCKS < |d| && ReadableHeader(d[start])
  {
    InstallWrites(d, start, DecodeHeader(d[start])) + [Write(start, EncodeHeader(d[start], []))]
  }

  /** Putting one logged block in place changes nothing the disk stands for. */
  lemma InstallKeeps(d: Disk, start: nat, lh: seq<int>, want: Disk, i: nat)
    requires Stands(d, start, lh, want) && i < |lh|
    ensures Stands(d[lh[i] := want[lh[i]]], start, lh, want)
  {
  }

  /** What the disk looks like with the first k logged blocks in place. */
  ghost predicate Installed(d: Disk, start: nat, lh: seq<int>, want: Disk, k: nat, r: Disk)
    requires k <= |lh|
  {
    && Stands(r, start, lh, want)
    && |r| == |d|
    && (forall b :: 0 <= b < |d| && InLog(start, b) ==> r[b] == d[b])
    && (forall i :: 0 <= i < k ==> r[lh[i]] == want[lh[i]])
  }

  lemma InstalledStep(d: Disk, start: nat, lh: seq<int>, want: Disk, k: nat, r: Disk)
    requires k < |lh| && Installed(d, start, lh, want, k, r)
    requires Stands(d, start, lh, want)
    ensures Installed(d, start, lh, want, k + 1, WriteBlock(r, Write(lh[k], d[start+1+k])))
  {
    InstallKeeps(r, start, lh, want, k);
  }

  /** Installing any prefix of the logged blocks keeps what the disk stands for and leaves the log alone. */
  lemma {:induction false} InstallPrefix(d: Disk, start: nat, lh: seq<int>, want: Disk, k: nat)
    requires Stands(d, start, lh, want) && k <= |lh|
    ensures Installed(d, start, lh, want, k, Apply(d, InstallWrites(d, start, lh)[..k]))
  {
    if k > 0 {
      InstallPrefix(d, start, lh, want, k - 1);
      ApplyPrefix(d, InstallWrites(d, start, lh), k - 1);
      assert InstallWrites(d, start, lh)[k-1] == Write(lh[k-1], d[start+k]);
      InstalledStep(d, start, lh, want, k - 1, Apply(d, InstallWrites(d, start, lh)[..k-1]));
    }
  }

  /** Stopping recovery after any of its writes loses nothing. */
  lemma RecoveryPrefix(d: Disk, start: nat, want: Disk, k: nat)
    requires Represents(d, start, want)
    requires k <= |DecodeHeader(d[start])|
    ensures var ws := RecoveryWrites(d, start);
      && Represents(Apply(d, ws[..k]), start, want)
  {
    var lh := DecodeHeader(d[start]);
    InstallPrefix(d, start, lh, want, k);
    assert RecoveryWrites(d, start)[..k] == InstallWrites(d, start, lh)[..k];
  }

  /** Once all logged blocks are in place the home blocks no longer need the log. */
  lemma ClearInstalled(d: Disk, start: nat, lh: seq<int>, want: Disk, r: Disk, clear: Block)
    requires Installed(d, start, lh, want, |lh|, r)
    ensures Stands(r[start := clear], start, [], want)
    ensures forall b :: 0 <= b < |d| && !InLog(start, b) ==> r[b] == want[b]
  {
    forall b | 0 <= b < |d| && !InLog(start, b) ensures r[b] == want[b] {
      if b in lh {
        var i :| 0 <= i < |lh| && lh[i] == b;
      }
    }
  }

  /** Clearing the header once all logged blocks are in place finishes the recovery. */
  lemma Recovered(d: Disk, start: nat, lh: seq<int>, want: Disk, m: Disk, clear: Block)
    requires Installed(d, start, lh, want, |lh|, m) && IsHeader(clear, [])
    ensures var r := WriteBlock(m, Write(start, clear));
      && Represents(r, start, want)
      && IsHeader(r[start], [])
      && (forall b :: 0 <= b < |d| && !InLog(start, b) ==> r[b] == want[b])
  {
    ClearInstalled(d, start, lh, want, m, clear);
  }

  /** A recovery that is not interrupted puts every home block in place and empties the log. */
  lemma RecoveryComplete(d: Disk, start: nat, want: Disk)
    requires Represents(d, start, want)
    ensures var ws := RecoveryWrites(d, start);
      && var r := Apply(d, ws);
      && Represents(r, start, want)
      && IsHeader(r[start], [])
      && (forall b :: 0 <= b < |d| && !InLog(start, b) ==> r[b] == want[b])
  {
    var lh, clear := DecodeHeader(d[start]), EncodeHeader(d[start], []);
    var iw := InstallWrites(d, start, lh);
    HeaderRoundTrip(d[start], []);
    InstallPrefix(d, start, lh, want, |lh|);
    TakeAll(iw);
    ApplySnoc(d, iw, Write(start, clear));
    Recovered(d, start, lh, want, Apply(d, iw), clear);
  }

  /** Boot after boot, each recovery cut short after crashes[i] writes. */
  ghost function CrashedRecoveries(d: Disk, start: nat, want: Disk, crashes: seq<nat>): (r: Disk)
    requires Represents(d, start, want)
    ensures Represents(r, start, want)
  {
    if crashes == [] then d
    else
      var p := CrashedRecoveries(d, start, want, crashes[..|crashes|-1]);
      var k := crashes[|crashes|-1];
      if k <= |DecodeHeader(p[start])| then
        RecoveryPrefix(p, start, want, k);
        Apply(p, RecoveryWrites(p, start)[..k])
      else
        RecoveryComplete(p, start, want);
        Apply(p, RecoveryWrites(p, start))
  }

  // ---------- commit ----------

  /** The writes of write_log: the log area gets the contents of the logged blocks. */
  function LogWrites(start: nat, contents: seq<Block>): (ws: seq<Write>)
  {
    seq(|contents|, i requires 0 <= i < |contents| => Write(start+1+i, contents[i]))
  }

  /** Everything up to and including the header write. */
  function PublishWrites(d: Disk, start: nat, lh: seq<int>, contents: seq<Block>): (ws: seq<Write>)
    requires start < |d| && |d[start].bytes| == BSIZE && |lh| <= LOGBLOCKS
  {
    LogWrites(start, contents) + [Write(start, EncodeHeader(d[start], lh))]
  }

  /** The writes of commit: the logged blocks, the header, the home blocks, the empty header. */
  function CommitWrites(d: Disk, start: nat, lh: seq<int>, contents: seq<Block>): (ws: seq<Write>)
    requires start < |d| && |d[start].bytes| == BSIZE && |lh| <= LOGBLOCKS && |contents| == |lh|
  {
    PublishWrites(d, start, lh, contents)
    + (HomeWrites(lh, contents) + [Write(start, EncodeHeader(EncodeHeader(d[start], lh), []))])
  }

  /** `after` is the disk with the transaction's contents in place of the logged home blocks. */
  ghost predicate IsAfter(d: Disk, start: nat, lh: seq<int>, contents: seq<Block>, after: Disk)
  {
    && |after| == |d| && |contents| == |lh| && GoodLog(d, start, lh) && |d[start].bytes| == BSIZE
    && (forall i :: 0 <= i < |lh| ==> after[lh[i]] == contents[i])
    && (forall b :: 0 <= b < |d| && b !in lh ==> after[b] == d[b])
  }

  /** Before the header write the log area is the only thing touched. */
  lemma {:induction false} LoggingPrefix(d: Disk, start: nat, contents: seq<Block>, k: nat)
    requires start + LOGBLOCKS < |d| && k <= |contents| <= LOGBLOCKS
    ensures var r := Apply(d, LogWrites(start, contents)[..k]);
      && (forall i :: 0 <= i < k ==> r[start+1+i] == contents[i])
      && (forall b :: 0 <= b < |d| && !(start < b <= start + k) ==> r[b] == d[b])
  {
    if k > 0 {
      LoggingPrefix(d, start, contents, k - 1);
      ApplyPrefix(d, LogWrites(start, contents), k - 1);
      assert LogWrites(start, contents)[k-1] == Write(start+k, contents[k-1]);
    }
  }

  /** The header write is the commit point: from here on the disk stands for the new contents. */
  lemma HeaderCommits(d: Disk, start: nat, lh: seq<int>, contents: seq<Block>, after: Disk)
    requires IsAfter(d, start, lh, contents, after)
    ensures var r := Apply(d, PublishWrites(d, start, lh, contents));
      && r[start] == EncodeHeader(d[start], lh)
      && IsHeader(r[start], lh)
      && r[start+1..start+1+|lh|] == contents
      && Represents(r, start, after)
  {
    var lw, head := LogWrites(start, contents), EncodeHeader(d[start], lh);
    HeaderRoundTrip(d[start], lh);
    LoggingPrefix(d, start, contents, |lh|);
    assert lw[..|lh|] == lw;
    ApplySnoc(d, lw, Write(start, head));
    Published(d, start, lh, contents, after, Apply(d, lw), head);
  }

  lemma Published(d: Disk, start: nat, lh: seq<int>, contents: seq<Block>, after: Disk, m: Disk, head: Block)
    requires IsAfter(d, start, lh, contents, after) && |m| == |d|
    requires forall i :: 0 <= i < |lh| ==> m[start+1+i] == contents[i]
    requires forall b :: 0 <= b < |d| && !(start < b <= start + |lh|) ==> m[b] == d[b]
    ensures Stands(m[start := head], start, lh, after)
    ensures m[start := head][start+1..start+1+|lh|] == contents
  {
  }

  /** The rest of commit is write for write what recovery would do from the disk just committed. */
  lemma CommitThenRecovers(d: Disk, start: nat, lh: seq<int>, contents: seq<Block>, after: Disk)
    requires IsAfter(d, start, lh, contents, after)
    ensures var r := Apply(d, PublishWrites(d, start, lh, contents));
      && Represents(r, start, after)
      && CommitWrites(d, start, lh, contents) == PublishWrites(d, start, lh, contents) + RecoveryWrites(r, start)
  {
    HeaderCommits(d, start, lh, contents, after);
  }

  lemma {:induction false} ApplyConcat(d: Disk, a: seq<Write>, c: seq<Write>)
    ensures Apply(d, a + c) == Apply(Apply(d, a), c)
  {
    if c == [] {
      assert a + c == a;
    } else {
      ApplyConcat(d, a, c[..|c|-1]);
      assert (a + c)[..|a + c|-1] == a + c[..|c|-1];
    }
  }

  /** Up to the header write the disk still stands for the old blocks. */
  lemma UncommittedPrefix(d: Disk, start: nat, lh: seq<int>, contents: seq<Block>, k: nat)
    requires GoodLog(d, start, lh) && |contents| == |lh|
    requires IsHeader(d[start], [])
    requires k <= |lh|
    ensures Represents(Apply(d, CommitWrites(d, start, lh, contents)[..k]), start, d)
  {
    LoggingPrefix(d, start, contents, k);
    assert CommitWrites(d, start, lh, contents)[..k] == LogWrites(start, contents)[..k];
  }

  /** From the header write on it stands for the new blocks. */
  lemma CommittedPrefix(d: Disk, start: nat, lh: seq<int>, contents: seq<Block>, after: Disk, k: nat)
    requires IsAfter(d, start, lh, contents, after)
    requires |lh| < k <= |CommitWrites(d, start, lh, contents)|
    ensures Represents(Apply(d, CommitWrites(d, start, lh, contents)[..k]), start, after)
  {
    var pw := PublishWrites(d, start, lh, contents);
    CommitThenRecovers(d, start, lh, contents, after);
    var r := Apply(d, pw);
    var rw, j := RecoveryWrites(r, start), k - |pw|;
    assert CommitWrites(d, start, lh, contents)[..k] == pw + rw[..j];
    ApplyConcat(d, pw, rw[..j]);
    if j < |rw| {
      RecoveryPrefix(r, start, after, j);
    } else {
      assert rw[..j] == rw;
      RecoveryComplete(r, start, after);
    }
  }

  /**
   Crash atomicity.  Cut commit after any number k of its writes, cut any number of
   recoveries anywhere, then let one recovery finish: every home block holds its old
   contents if the header write had not happened and its new contents if it had, the same
   choice for all blocks, and the log is empty.
   */
  lemma CrashAtomicity(d: Disk, start: nat, lh: seq<int>, contents: seq<Block>, after: Disk, k: nat, crashes: seq<nat>)
    requires IsAfter(d, start, lh, contents, after)
    requires IsHeader(d[start], [])
    requires k <= |CommitWrites(d, start, lh, contents)|
    ensures var ws := CommitWrites(d, start, lh, contents);
      var want := if k <= |lh| then d else after;
      && Represents(Apply(d, ws[..k]), start, want)
      && var crashed := CrashedRecoveries(Apply(d, ws[..k]), start, want, crashes);
      && var r := Apply(crashed, RecoveryWrites(crashed, start));
      && |r| == |d|
      && (forall b :: 0 <= b < |d| && !InLog(start, b) ==> r[b] == want[b])
      && IsHeader(r[start], [])
  {
    if k <= |lh| {
      UncommittedPrefix(d, start, lh, contents, k);
    } else {
      CommittedPrefix(d, start, lh, contents, after, k);
    }
    var want := if k <= |lh| then d else after;
    var cut := Apply(d, CommitWrites(d, start, lh, contents)[..k]);
    RecoveryComplete(CrashedRecoveries(cut, start, want, crashes), start, want);
  }
}
