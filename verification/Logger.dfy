/** The main logger and the group loggers (api/v1/logger.go).  Levels and formatting are not part of
    this model: a message is the text handed to `log`. */
module Logger {
  import opened Masking

  /** strings.Join(msgs, sep). */
  function Join(msgs: seq<string>, sep: string): string {
    if msgs == [] then ""
    else if |msgs| == 1 then msgs[0]
    else msgs[0] + sep + Join(msgs[1..], sep)
  }

  /** What Fprintln has written for some messages. */
  function Lines(msgs: seq<string>): string {
    if msgs == [] then "" else Lines(msgs[..|msgs| - 1]) + msgs[|msgs| - 1] + "\n"
  }

  class GroupLogger {
    var msgs: seq<string>

    constructor ()
      ensures msgs == []
    {
      msgs := [];
    }

    method Log(msg: string)
      modifies this
      ensures msgs == if msg == "" then old(msgs) else old(msgs) + [msg]
    {
      if msg == "" {
        return;
      }
      msgs := msgs + [msg];
    }

    /** A mask added through a group logger is dropped: nothing changes, and no later line is masked
        with it. */
    method AddMask(mask: string)
      ensures msgs == old(msgs)
    {
    }

    method LogGroup(group: GroupLogger)
      modifies this
      ensures msgs == old(msgs) + old(group.msgs)
    {
      msgs := msgs + group.msgs;
    }
  }

  class MainLogger {
    var masks: seq<string>
    var out: string
    var buf: string

    constructor ()
      ensures masks == [] && out == "" && buf == ""
    {
      masks, out, buf := [], "", "";
    }

    method AddMask(mask: string)
      modifies this`masks
      ensures masks == old(masks) + [mask]
    {
      masks := masks + [mask];
    }

    method Mask(msg: string) returns (maskedMsg: string)
      ensures maskedMsg == MaskAll(msg, masks)
    {
      maskedMsg := msg;
      for i := 0 to |masks|
        invariant maskedMsg == MaskAll(msg, masks[..i])
      {
        assert masks[..i + 1][..i] == masks[..i];
        maskedMsg := MaskOne(maskedMsg, masks[i]);
      }
      assert masks[..|masks|] == masks;
    }

    /** Both destinations get the same line. */
    method Log(msg: string)
      modifies this`out, this`buf
      ensures msg == "" ==> out == old(out) && buf == old(buf)
      ensures msg != "" ==> out == old(out) + Lines([MaskAll(msg, masks)]) && buf == old(buf) + Lines([MaskAll(msg, masks)])
    {
      if msg == "" {
        return;
      }
      var maskedMsg := Mask(msg);
      assert [maskedMsg][..0] == [] && Lines([maskedMsg]) == maskedMsg + "\n";
      out := out + (maskedMsg + "\n");
      buf := buf + (maskedMsg + "\n");
    }

    /** All messages of a group are masked and written as one. */
    method LogGroup(group: GroupLogger)
      modifies this`out, this`buf
      ensures var msg := Join(group.msgs, "\n"); var added := if msg == "" then "" else Lines([MaskAll(msg, masks)]);
        out == old(out) + added && buf == old(buf) + added
    {
      Log(Join(group.msgs, "\n"));
    }
  }

  /** The messages of a group keep their order and their place: message i stands at one offset of the
      joined text, separated by line breaks from its neighbours. */
  function Offset(msgs: seq<string>, i: nat): nat
    requires i < |msgs|
  {
    if i == 0 then 0 else |msgs[0]| + 1 + Offset(msgs[1..], i - 1)
  }

  lemma {:induction false} JoinedAt(msgs: seq<string>, i: nat)
    requires i < |msgs|
    ensures var o := Offset(msgs, i); var s := Join(msgs, "\n");
      && o + |msgs[i]| <= |s| && s[o..o + |msgs[i]|] == msgs[i]
      && (i + 1 < |msgs| ==> o + |msgs[i]| < |s| && s[o + |msgs[i]|] == '\n' && Offset(msgs, i + 1) == o + |msgs[i]| + 1)
      && (i + 1 == |msgs| ==> o + |msgs[i]| == |s|)
    decreases |msgs|
  {
    if i == 0 {
      if |msgs| > 1 {
        JoinHead(msgs);
        assert Offset(msgs, 1) == |msgs[0]| + 1 + Offset(msgs[1..], 0);
      }
    } else {
      JoinedAt(msgs[1..], i - 1);
      JoinHead(msgs);
      SliceAfter(msgs[0] + "\n", Join(msgs[1..], "\n"), Offset(msgs[1..], i - 1), |msgs[i]|);
    }
  }

  lemma JoinHead(msgs: seq<string>)
    requires |msgs| > 1
    ensures var s := Join(msgs, "\n");
      && s == (msgs[0] + "\n") + Join(msgs[1..], "\n")
      && s[..|msgs[0]|] == msgs[0] && s[|msgs[0]|] == '\n'
  {
  }

  lemma SliceAfter(a: string, b: string, o: nat, n: nat)
    requires o + n <= |b|
    ensures (a + b)[|a| + o..|a| + o + n] == b[o..o + n]
    ensures o + n < |b| ==> (a + b)[|a| + o + n] == b[o + n]
  {
  }

  /** A masked group is written contiguously with every message in its place: the characters of
      message i in the written text are its own or stars. */
  lemma GroupWritten(msgs: seq<string>, masks: seq<string>, i: nat)
    requires i < |msgs|
    ensures var text := MaskAll(Join(msgs, "\n"), masks); var o := Offset(msgs, i);
      o + |msgs[i]| <= |text| && Starred(text[o..o + |msgs[i]|], msgs[i])
  {
    var s := Join(msgs, "\n");
    JoinedAt(msgs, i);
    MaskAllStarred(s, masks);
    StarredSlice(MaskAll(s, masks), s, Offset(msgs, i), |msgs[i]|);
  }

  lemma StarredSlice(r: string, s: string, o: nat, n: nat)
    requires Starred(r, s) && o + n <= |s|
    ensures Starred(r[o..o + n], s[o..o + n])
  {
    var a, b := r[o..o + n], s[o..o + n];
    forall j | 0 <= j < n ensures a[j] == b[j] || a[j] == '*' {
      assert r[o + j] == s[o + j] || r[o + j] == '*';
    }
  }
}
