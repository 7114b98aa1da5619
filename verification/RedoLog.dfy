/**
 kernel/log.c as code: the in-memory header, commit, install and recovery, each proved to
 issue exactly the block writes that module Log reasons about.

 Of the buffer cache only the pinned buffers appear here: every other cached block agrees
 with the disk (module LogSystem proves it), so bread of it is a read of the disk.
 */
module RedoLog {
  import opened Basics
  import opened Blocks
  import opened Log

  /** What log_write does to the header: a block already logged is absorbed. */
  function Absorb(lh: seq<int>, b: int): (r: seq<int>)
  {
    if b in lh then lh else lh + [b]
  }

  lemma AbsorbMembers(lh: seq<int>, b: int)
    ensures forall x :: x in Absorb(lh, b) <==> x in lh || x == b
  {
  }

  /** Only blocks that are still to be installed are pinned, and none in recovery. */
  ghost predicate PinnedFrom(pinned: map<int, Block>, lh: seq<int>, tail: int, recovering: bool)
    requires 0 <= tail <= |lh|
  {
    forall b :: b in pinned ==> !recovering && b in lh[tail..]
  }

  lemma UnpinOne(pinned: map<int, Block>, lh: seq<int>, tail: int, recovering: bool)
    requires 0 <= tail < |lh| && PinnedFrom(pinned, lh, tail, recovering)
    ensures PinnedFrom(if recovering then pinned else pinned - {lh[tail]}, lh, tail + 1, recovering)
  {
    assert lh[tail..] == [lh[tail]] + lh[tail+1..];
  }

  lemma InstallWriteAt(d: Disk, start: nat, lh: seq<int>, k: int)
    requires start + LOGBLOCKS < |d| && 0 <= k < |lh| <= LOGBLOCKS
    ensures InstallWrites(d, start, lh)[k] == Write(lh[k], d[start+1+k])
  {
  }

  datatype LogWriteOutcome = Logged | TooBig | OutsideTransaction

  class RedoLog {
    const start: nat
    var disk: Disk
    ghost var writes: seq<Write>
    var pinned: map<int, Block>     // the buffers that log_write pinned, with their contents
    var lh: seq<int>
    var outstanding: nat

    ghost predicate Valid()
      reads this
    {
      && GoodLog(disk, start, lh) && Distinct(lh)
      && |disk[start].bytes| == BSIZE
      && (forall b :: b in pinned <==> b in lh)
    }

    /** The contents bread returns. */
    function Content(b: int): (data: Block)
      requires 0 <= b < |disk|
      reads this
    {
      if b in pinned then pinned[b] else disk[b]
    }

    /** contents[i] is the current contents of the i-th logged block. */
    ghost predicate AreContents(contents: seq<Block>)
      reads this
    {
      |contents| == |lh| && forall i :: 0 <= i < |lh| ==> 0 <= lh[i] < |disk| && contents[i] == Content(lh[i])
    }

    ghost predicate NothingPinned()
      reads this
    {
      forall b :: b !in pinned
    }

    /** initlog: recover whatever the disk holds, then start with an empty log. */
    constructor (d: Disk, start: nat)
      requires start < |d| && ReadableHeader(d[start]) && GoodLog(d, start, DecodeHeader(d[start]))
      ensures Valid() && this.start == start && lh == [] && outstanding == 0 && NothingPinned()
      ensures writes == RecoveryWrites(d, start) && disk == Apply(d, RecoveryWrites(d, start))
    {
      this.start, disk := start, d;
      writes, pinned, lh, outstanding := [], map[], [], 0;
      new;
      RecoverFromLog();
    }

    /** Overwrite a buffer and write it to disk. */
    method Bwrite(b: int, data: Block)
      requires 0 <= b < |disk|
      modifies `disk, `writes, `pinned
      ensures disk == WriteBlock(old(disk), Write(b, data)) && writes == old(writes) + [Write(b, data)]
      ensures pinned == if b in old(pinned) then old(pinned)[b := data] else old(pinned)
    {
      disk := disk[b := data];
      writes := writes + [Write(b, data)];
      if b in pinned {
        pinned := pinned[b := data];
      }
    }

    /** Since the state (d, w) exactly the writes ws were issued. */
    ghost predicate Issued(d: Disk, w: seq<Write>, ws: seq<Write>)
      reads this
    {
      disk == Apply(d, ws) && writes == w + ws
    }

    /** A block write that is the next of the planned writes ws. */
    method Issue(b: int, data: Block, ghost d: Disk, ghost w: seq<Write>, ghost ws: seq<Write>, ghost k: nat)
      requires 0 <= b < |disk| && k < |ws| && ws[k] == Write(b, data) && Issued(d, w, ws[..k])
      modifies `disk, `writes, `pinned
      ensures Issued(d, w, ws[..k+1]) && disk == old(disk)[b := data]
      ensures pinned == if b in old(pinned) then old(pinned)[b := data] else old(pinned)
    {
      ApplyPrefix(d, ws, k);
      TakeOneMore(ws, k);
      Bwrite(b, data);
    }

    /** write_log: copy every logged block from the cache to its place in the log. */
    method WriteLog(ghost contents: seq<Block>)
      requires GoodLog(disk, start, lh) && (forall b :: b in pinned ==> !InLog(start, b))
      requires AreContents(contents)
      modifies `disk, `writes, `pinned
      ensures Issued(old(disk), old(writes), LogWrites(start, contents)) && pinned == old(pinned)
    {
      ghost var lw := LogWrites(start, contents);
      for tail := 0 to |lh|
        invariant |disk| == |old(disk)| && pinned == old(pinned)
        invariant AreContents(contents)
        invariant Issued(old(disk), old(writes), lw[..tail])
      {
        assert lw[tail] == Write(start + tail + 1, contents[tail]);
        Issue(start + tail + 1, Content(lh[tail]), old(disk), old(writes), lw, tail);
      }
      TakeAll(lw);
    }

    /** read_head: the in-memory header becomes the one on disk. */
    method ReadHead()
      requires start < |disk| && ReadableHeader(disk[start])
      modifies `lh
      ensures lh == DecodeHeader(disk[start])
    {
      var n := GetWord(disk[start], 0);
      lh := [];
      for i := 0 to n
        invariant lh == DecodeHeader(disk[start])[..i]
      {
        lh := lh + [GetWord(disk[start], i + 1)];
      }
    }

    /** write_head: one block write that replaces the header. */
    method WriteHead()
      requires start < |disk| && |disk[start].bytes| == BSIZE && |lh| <= LOGBLOCKS && start !in pinned
      modifies `disk, `writes, `pinned
      ensures pinned == old(pinned)
      ensures var w := Write(start, EncodeHeader(old(disk)[start], lh));
        disk == WriteBlock(old(disk), w) && writes == old(writes) + [w]
    {
      var hb := PutWord(disk[start], 0, |lh|);
      ghost var h0 := hb;
      for i := 0 to |lh|
        invariant hb == PutWords(h0, 1, lh[..i])
      {
        assert lh[..i+1][..i] == lh[..i];
        hb := PutWord(hb, i + 1, lh[i]);
      }
      assert lh[..|lh|] == lh;
      Bwrite(start, hb);
    }

    /** install_trans: copy every block that the header names from the log to its home. */
    method InstallTrans(recovering: bool)
      requires GoodLog(disk, start, lh)
      requires if recovering then NothingPinned() else forall b :: b in pinned <==> b in lh
      modifies `disk, `writes, `pinned
      ensures Issued(old(disk), old(writes), InstallWrites(old(disk), start, lh)) && NothingPinned()
      ensures disk[start] == old(disk)[start]
    {
      ghost var iw := InstallWrites(disk, start, lh);
      for tail := 0 to |lh|
        invariant |disk| == |old(disk)|
        invariant forall b :: 0 <= b < |disk| && InLog(start, b) ==> disk[b] == old(disk)[b]
        invariant PinnedFrom(pinned, lh, tail, recovering)
        invariant Issued(old(disk), old(writes), iw[..tail])
      {
        InstallWriteAt(old(disk), start, lh, tail);
        UnpinOne(pinned, lh, tail, recovering);
        Issue(lh[tail], disk[start+1+tail], old(disk), old(writes), iw, tail);
        if !recovering {
          pinned := pinned - {lh[tail]};
        }
      }
      TakeAll(iw);
    }

    /** recover_from_log: exactly the writes of module Log's recovery, from whatever disk was found. */
    method RecoverFromLog()
      requires start < |disk| && ReadableHeader(disk[start])
      requires GoodLog(disk, start, DecodeHeader(disk[start]))
      requires NothingPinned()
      modifies `disk, `writes, `pinned, `lh
      ensures Valid() && lh == [] && NothingPinned()
      ensures Issued(old(disk), old(writes), RecoveryWrites(old(disk), start))
    {
      ReadHead();
      InstallTrans(true);
      lh := [];
      WriteHead();
      RecoveryPieces(old(writes), old(disk), start);
    }

    /** log_write of a held buffer for block b whose contents are data. */
    method LogWrite(b: int, data: Block) returns (outcome: LogWriteOutcome)
      requires Valid() && 0 <= b < |disk| && !InLog(start, b)
      modifies `lh, `pinned
      ensures Valid()
      ensures outcome == if old(|lh|) >= LOGBLOCKS then TooBig else if outstanding < 1 then OutsideTransaction
        else Logged
      ensures lh == if outcome.Logged? then Absorb(old(lh), b) else old(lh)
      ensures pinned == if outcome.Logged? then old(pinned)[b := data] else old(pinned)
    {
      if |lh| >= LOGBLOCKS {
        return TooBig;
      }
      if outstanding < 1 {
        return OutsideTransaction;
      }
      var i := 0;
      while i < |lh| && lh[i] != b
        invariant 0 <= i <= |lh| && b !in lh[..i]
      {
        i := i + 1;
      }
      assert b in lh <==> i < |lh|;
      if i < |lh| {
        lh := lh[i := b];
      } else {
        lh := lh + [b];
      }
      assert lh == Absorb(old(lh), b);
      AbsorbMembers(old(lh), b);
      pinned := pinned[b := data];
      return Logged;
    }

    /** The first half of commit: write the log, then the header that makes it count. */
    method Publish(ghost contents: seq<Block>)
      requires Valid() && AreContents(contents)
      modifies `disk, `writes, `pinned
      ensures pinned == old(pinned) && |disk| == |old(disk)|
      ensures Issued(old(disk), old(writes), PublishWrites(old(disk), start, lh, contents))
      ensures disk[start] == EncodeHeader(old(disk)[start], lh)
      ensures InstallWrites(disk, start, lh) == HomeWrites(lh, contents)
    {
      PublishPieces(writes, disk, start, lh, contents);
      WriteLog(contents);
      WriteHead();
    }

    /** commit: exactly the writes of module Log's commit; afterwards nothing is logged or pinned. */
    method Commit(ghost contents: seq<Block>)
      requires Valid() && AreContents(contents)
      modifies `disk, `writes, `pinned, `lh
      ensures Valid() && lh == [] && NothingPinned()
      ensures Issued(old(disk), old(writes), if old(lh) == [] then []
        else CommitWrites(old(disk), start, old(lh), contents))
    {
      if |lh| > 0 {
        CommitPieces(writes, disk, start, lh, contents);
        Publish(contents);
        InstallTrans(false);
        lh := [];
        WriteHead();
      }
    }
  }

  lemma RecoveryPieces(w: seq<Write>, d: Disk, start: nat)
    requires start + LOGBLOCKS < |d| && ReadableHeader(d[start])
    ensures var iw, c, rw := InstallWrites(d, start, DecodeHeader(d[start])),
      Write(start, EncodeHeader(d[start], [])), RecoveryWrites(d, start);
      w + iw + [c] == w + rw && WriteBlock(Apply(d, iw), c) == Apply(d, rw)
  {
    ApplySnoc(d, InstallWrites(d, start, DecodeHeader(d[start])), Write(start, EncodeHeader(d[start], [])));
  }

  lemma PublishPieces(w: seq<Write>, d: Disk, start: nat, lh: seq<int>, contents: seq<Block>)
    requires start + LOGBLOCKS < |d| && |d[start].bytes| == BSIZE && |lh| <= LOGBLOCKS && |contents| == |lh|
    ensures var lw, hw, pw := LogWrites(start, contents), Write(start, EncodeHeader(d[start], lh)),
      PublishWrites(d, start, lh, contents);
      && w + lw + [hw] == w + pw && Apply(d, lw)[start] == d[start] && WriteBlock(Apply(d, lw), hw) == Apply(d, pw)
      && Apply(d, pw)[start] == hw.data && InstallWrites(Apply(d, pw), start, lh) == HomeWrites(lh, contents)
  {
    var lw, hw := LogWrites(start, contents), Write(start, EncodeHeader(d[start], lh));
    LogWritten(d, start, contents);
    ApplySnoc(d, lw, hw);
    assert w + lw + [hw] == w + (lw + [hw]);
    assert Apply(d, lw + [hw])[start+1..start+1+|lh|] == contents;
  }

  lemma LogWritten(d: Disk, start: nat, contents: seq<Block>)
    requires start + LOGBLOCKS < |d| && |contents| <= LOGBLOCKS
    ensures var r := Apply(d, LogWrites(start, contents));
      && r[start] == d[start]
      && forall i :: 0 <= i < |contents| ==> r[start+1+i] == contents[i]
  {
    LoggingPrefix(d, start, contents, |contents|);
    TakeAll(LogWrites(start, contents));
  }

  lemma CommitPieces(w: seq<Write>, d: Disk, start: nat, lh: seq<int>, contents: seq<Block>)
    requires start < |d| && |d[start].bytes| == BSIZE && |lh| <= LOGBLOCKS && |contents| == |lh|
    ensures var pw, hw := PublishWrites(d, start, lh, contents), HomeWrites(lh, contents);
      var c := Write(start, EncodeHeader(EncodeHeader(d[start], lh), []));
      && w + pw + hw + [c] == w + CommitWrites(d, start, lh, contents)
      && WriteBlock(Apply(Apply(d, pw), hw), c) == Apply(d, CommitWrites(d, start, lh, contents))
  {
    var pw, hw := PublishWrites(d, start, lh, contents), HomeWrites(lh, contents);
    var c := Write(start, EncodeHeader(EncodeHeader(d[start], lh), []));
    ApplySnoc(Apply(d, pw), hw, c);
    ApplyConcat(d, pw, hw + [c]);
  }
}
