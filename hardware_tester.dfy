/**
 * The console helpers of the hardware tester: waiting for a key, editing a line into a
 * fixed-size buffer, stripping the newline `fgets` leaves in a line, and turning a digit key
 * into a Wi-Fi channel.
 *
 * The console is a sequence of keys: each `scanf("%c", &key)` consumes the next one, and a
 * read that delivers nothing leaves `key` at 0, so it appears as a `'\0'` key.  What the
 * helpers echo with `printf` is returned as a sequence of characters.
 */
module HardwareTester {
  import opened Wrappers

  const Enter: char := 10 as char
  const Backspace: char := 8 as char

  /** A C `char`: one byte. */
  type Key = c: char | c as int < 256 witness '\0'

  // ---------------------------------------------------------------------------------------
  // ReadKey

  /**
   * `ReadKey`: polls until a key other than 0 arrives.  On a finite input the model also
   * reports running out of keys, where the device would keep polling.
   */
  method ReadKey(keys: seq<char>) returns (key: Option<char>, used: nat)
    ensures used <= |keys|
    ensures forall k :: 0 <= k < |keys| && k < used && (key.None? || k < used - 1) ==> keys[k] == '\0'
    ensures key.Some? ==> 0 < used && keys[used - 1] == key.value && key.value != '\0'
    ensures key.None? ==> used == |keys|
  {
    var c: char := '\0';
    used := 0;
    while c == '\0' && used < |keys|
      invariant used <= |keys|
      invariant c == '\0' ==> forall k :: 0 <= k < used ==> keys[k] == '\0'
      invariant c != '\0' ==> 0 < used && keys[used - 1] == c && forall k :: 0 <= k < used - 1 ==> keys[k] == '\0'
    {
      c := keys[used];
      used := used + 1;
    }
    key := if c == '\0' then None else Some(c);
  }

  // ---------------------------------------------------------------------------------------
  // C strings

  /** The part of `s` before the first `c`, or all of `s` when `c` does not occur. */
  function Before(s: seq<char>, c: char): (b: seq<char>)
    ensures b <= s && c !in b
    ensures |b| < |s| ==> s[|b|] == c
    ensures c !in s ==> b == s
  {
    if |s| == 0 || s[0] == c then [] else [s[0]] + Before(s[1..], c)
  }

  /** The text a `char` buffer holds as a C string: everything before the first NUL. */
  function CString(s: seq<char>): (t: seq<char>)
    ensures t <= s && '\0' !in t
    ensures |t| < |s| ==> s[|t|] == '\0'
  {
    Before(s, '\0')
  }

  /** Text followed by a NUL reads back as exactly that text, whatever comes after. */
  lemma {:induction false} CStringOfTerminated(t: seq<char>, rest: seq<char>)
    requires '\0' !in t
    ensures CString(t + ['\0'] + rest) == t
  {
    if |t| > 0 {
      assert (t + ['\0'] + rest)[1..] == t[1..] + ['\0'] + rest;
      CStringOfTerminated(t[1..], rest);
    }
  }

  /** `strchr(a, c)` for a non-NUL `c`: the index of the first `c` in the C string `a` holds. */
  method Strchr(a: array<char>, c: char) returns (pos: Option<nat>)
    requires c != '\0'
    requires '\0' in a[..]
    ensures pos.Some? ==> pos.value == |Before(CString(a[..]), c)| < |CString(a[..])|
    ensures pos.None? <==> c !in CString(a[..])
  {
    var i := 0;
    while a[i] != '\0' && a[i] != c
      invariant 0 <= i < a.Length
      invariant '\0' !in a[..i] && c !in a[..i]
      invariant '\0' in a[i..]
      decreases a.Length - i
    {
      assert a[i..] == [a[i]] + a[i + 1..];
      assert a[..i + 1] == a[..i] + [a[i]];
      i := i + 1;
    }
    if a[i] == c {
      var t := CString(a[..]);
      assert forall k :: 0 <= k <= i ==> a[k] != '\0' by {
        forall k | 0 <= k <= i ensures a[k] != '\0' {
          if k < i {
            assert a[k] in a[..i];
          }
        }
      }
      assert t[..i] == a[..i];
      BeforeOfPrefix(t, i, c);
      pos := Some(i);
    } else {
      BeforeOfPrefix(a[..], i, '\0');
      pos := None;
    }
  }

  /** When `c` first occurs at `i`, the text before it is `s[..i]`. */
  lemma {:induction false} BeforeOfPrefix(s: seq<char>, i: nat, c: char)
    requires i < |s| && s[i] == c && c !in s[..i]
    ensures Before(s, c) == s[..i]
  {
    if i > 0 {
      assert s[1..][..i - 1] == s[..i][1..];
      BeforeOfPrefix(s[1..], i - 1, c);
    }
  }

  /**
   * The line after its newline is stripped: the first `'\n'` of the C string becomes a NUL, so
   * the C string ends where the newline was; no other byte changes, and a line without a
   * newline is left as it is.
   */
  function StripNewlineOf(line: seq<char>): (r: seq<char>)
    ensures |r| == |line|
    ensures CString(r) == Before(CString(line), '\n')
    ensures forall k :: 0 <= k < |line| && k != |CString(r)| ==> r[k] == line[k]
    ensures '\n' !in CString(line) ==> r == line
  {
    var t := CString(line);
    var b := Before(t, '\n');
    if |b| < |t| then
      CutAt(line, |b|);
      line[|b| := '\0']
    else
      line
  }

  /** Putting a NUL after a NUL-free start makes that start the C string. */
  lemma CutAt(line: seq<char>, p: nat)
    requires p < |line| && '\0' !in line[..p]
    ensures CString(line[p := '\0']) == line[..p]
  {
    assert line[p := '\0'] == line[..p] + ['\0'] + line[p + 1..];
    CStringOfTerminated(line[..p], line[p + 1..]);
  }

  /** `char *pos = strchr(line, '\n'); if (pos) *pos = '\0';` on a NUL-terminated line. */
  method StripNewline(line: array<char>)
    requires '\0' in line[..]
    modifies line
    ensures line[..] == StripNewlineOf(old(line[..]))
  {
    var pos := Strchr(line, '\n');
    if pos.Some? {
      line[pos.value] := '\0';
    }
  }

  // ---------------------------------------------------------------------------------------
  // Channel selection

  /**
   * `channel -= 48` on the key read for the Wi-Fi channel, as the byte handed on: the digits
   * '0'..'9' become 0..9, and every other key lands outside that range.
   */
  function ChannelFromKey(key: Key): (channel: int)
    ensures 0 <= channel < 256
    ensures '0' <= key <= '9' <==> channel <= 9
    ensures '0' <= key <= '9' ==> channel == key as int - '0' as int
    ensures (channel + 48) % 256 == key as int
  {
    (key as int - 48) % 256
  }

  // ---------------------------------------------------------------------------------------
  // ReadString: the line editor

  /** The text a key sequence types: keys push, Backspace pops, Enter and 0 add nothing. */
  function Typed(keys: seq<char>): (t: seq<char>)
    ensures '\0' !in t
    ensures |t| <= |keys|
  {
    if |keys| == 0 then []
    else
      var t := Typed(keys[..|keys| - 1]);
      var key := keys[|keys| - 1];
      if key == Backspace then (if |t| == 0 then [] else t[..|t| - 1])
      else if key == '\0' || key == Enter then t
      else t + [key]
  }

  /**
   * The editor's state: still reading, with the index of the next free cell and the echo so
   * far, or finished, with the terminated buffer and the complete echo.
   */
  datatype Editor = Editing(buf: seq<char>, i: nat, echo: seq<char>) | Finished(buf: seq<char>, echo: seq<char>)

  /** An editing state leaves room for at least one more key and the terminator. */
  predicate Room(e: Editor) {
    e.Editing? ==> e.i + 1 < |e.buf|
  }

  /**
   * One key of the corrected editor: Enter terminates at the index, Backspace erases the
   * previous character when there is one, 0 is ignored, and any other key is stored and
   * echoed; when the index reaches the last cell the terminator goes into that cell.
   */
  function Step(e: Editor, key: char): (r: Editor)
    requires e.Editing? && Room(e)
    ensures |r.buf| == |e.buf| && Room(r)
    ensures r.Editing? ==> r.i == if key == Backspace then (if e.i == 0 then 0 else e.i - 1)
                                   else if key == '\0' then e.i else e.i + 1
    ensures r.Finished? <==> key == Enter || (key != Backspace && key != '\0' && e.i + 2 == |e.buf|)
    ensures r.Editing? ==> r.buf == if key == Backspace || key == '\0' then e.buf else e.buf[e.i := key]
    ensures r.Finished? ==> r.buf == if key == Enter then e.buf[e.i := '\0'] else e.buf[e.i := key][e.i + 1 := '\0']
  {
    if key == Enter then
      Finished(e.buf[e.i := '\0'], e.echo + "\n")
    else if key == Backspace then
      if e.i == 0 then e else Editing(e.buf, e.i - 1, e.echo + [Backspace, ' ', Backspace])
    else if key == '\0' then
      e
    else if e.i + 1 == |e.buf| - 1 then
      Finished(e.buf[e.i := key][e.i + 1 := '\0'], e.echo + [key] + "\n")
    else
      Editing(e.buf[e.i := key], e.i + 1, e.echo + [key])
  }

  /** The editor after the keys, started on `buf` at index 0; keys after it finishes are not read. */
  function Run(buf: seq<char>, keys: seq<char>): (r: Editor)
    requires 2 <= |buf|
    ensures |r.buf| == |buf| && Room(r)
  {
    if |keys| == 0 then Editing(buf, 0, [])
    else
      var e := Run(buf, keys[..|keys| - 1]);
      if e.Finished? then e else Step(e, keys[|keys| - 1])
  }

  /** While editing, the buffer's first `i` cells hold exactly the typed text. */
  lemma {:induction false} RunHoldsTyped(buf: seq<char>, keys: seq<char>)
    requires 2 <= |buf|
    requires Run(buf, keys).Editing?
    ensures Run(buf, keys).i == |Typed(keys)|
    ensures Run(buf, keys).buf[..Run(buf, keys).i] == Typed(keys)
  {
    if |keys| > 0 {
      var front := keys[..|keys| - 1];
      RunHoldsTyped(buf, front);
      var e := Run(buf, front);
      var r := Step(e, keys[|keys| - 1]);
      assert e.buf[..e.i] == Typed(front);
      if r.Editing? && keys[|keys| - 1] != Backspace && keys[|keys| - 1] != '\0' {
        assert r.buf[..r.i] == e.buf[..e.i] + [keys[|keys| - 1]];
      }
    }
  }

  /**
   * When the editor finishes, the buffer holds the typed text as a C string: the line the
   * caller reads is exactly what the user typed, with Enter and the backspaced keys removed.
   */
  lemma FinishedHoldsTyped(buf: seq<char>, keys: seq<char>)
    requires 2 <= |buf| && |keys| > 0
    requires Run(buf, keys[..|keys| - 1]).Editing?
    requires Run(buf, keys).Finished?
    ensures CString(Run(buf, keys).buf) == Typed(keys)
  {
    var front := keys[..|keys| - 1];
    var key := keys[|keys| - 1];
    RunHoldsTyped(buf, front);
    var e := Run(buf, front);
    var r := Run(buf, keys);
    if key == Enter {
      assert r.buf == e.buf[..e.i] + ['\0'] + e.buf[e.i + 1..];
      CStringOfTerminated(Typed(front), e.buf[e.i + 1..]);
    } else {
      assert r.buf == e.buf[..e.i] + [key] + ['\0'] + e.buf[e.i + 2..];
      assert e.buf[..e.i] + [key] + ['\0'] + e.buf[e.i + 2..] == Typed(keys) + ['\0'] + e.buf[e.i + 2..];
      CStringOfTerminated(Typed(keys), e.buf[e.i + 2..]);
    }
  }

  /** Once finished, further keys change nothing. */
  lemma {:induction false} RunStaysFinished(buf: seq<char>, keys: seq<char>, more: seq<char>)
    requires 2 <= |buf|
    requires Run(buf, keys).Finished?
    ensures Run(buf, keys + more) == Run(buf, keys)
    decreases |more|
  {
    if |more| > 0 {
      var front := more[..|more| - 1];
      RunStaysFinished(buf, keys, front);
      var all := keys + more;
      assert all[..|all| - 1] == keys + front;
      assert Run(buf, all) == Run(buf, keys + front);
    } else {
      assert keys + more == keys;
    }
  }

  /**
   * `ReadString(string, size)` with both defects corrected: a Backspace at the start of the
   * line is ignored and a full buffer is terminated in its last cell.  It reads keys until the
   * line is finished, or until the keys run out (where the device would keep waiting).
   */
  method ReadString(s: array<char>, keys: seq<char>) returns (used: nat, done: bool, echo: seq<char>)
    requires 2 <= s.Length
    modifies s
    ensures used <= |keys|
    ensures done ==> Run(old(s[..]), keys[..used]) == Finished(s[..], echo)
    ensures done ==> 0 < used && Run(old(s[..]), keys[..used - 1]).Editing?
    ensures !done ==> used == |keys| && Run(old(s[..]), keys).Editing?
    ensures !done ==> Run(old(s[..]), keys).buf == s[..] && Run(old(s[..]), keys).echo == echo
  {
    ghost var initial := s[..];
    var i: nat := 0;
    used, done, echo := 0, false, [];
    while !done && used < |keys|
      invariant used <= |keys|
      invariant !done ==> Run(initial, keys[..used]) == Editing(s[..], i, echo)
      invariant done ==> Run(initial, keys[..used]) == Finished(s[..], echo)
      invariant done ==> 0 < used && Run(initial, keys[..used - 1]).Editing?
      decreases |keys| - used, !done
    {
      ghost var before := Run(initial, keys[..used]);
      var key := keys[used];
      used := used + 1;
      assert keys[..used][..used - 1] == keys[..used - 1];
      if key == Enter {
        s[i] := '\0';
        echo := echo + "\n";
        done := true;
      } else if key == Backspace {
        if i > 0 {
          echo := echo + [Backspace, ' ', Backspace];
          i := i - 1;
        }
      } else if key != '\0' {
        s[i] := key;
        echo := echo + [key];
        i := i + 1;
        if i == s.Length - 1 {
          s[i] := '\0';
          echo := echo + "\n";
          done := true;
        }
      }
      assert Run(initial, keys[..used]) == Step(before, key);
    }
    if !done {
      assert keys[..used] == keys;
    }
  }

  // ---------------------------------------------------------------------------------------
  // ReadString as written

  /**
   * The editor of `ReadString` exactly as written: `i` is a `uint8_t`, so it wraps, and a
   * store outside the `size` cells of the buffer is a fault at that index.
   */
  datatype Written = Reading(buf: seq<char>, i: int, echo: seq<char>) | Stopped(buf: seq<char>, echo: seq<char>) | Fault(index: int)

  /** One key of `ReadString` as written. */
  function StepAsWritten(w: Written, key: char): (r: Written)
    requires w.Reading? && 0 <= w.i < 256
    ensures r.Reading? ==> 0 <= r.i < 256 && |r.buf| == |w.buf|
    ensures r.Fault? ==> r.index >= |w.buf|
  {
    if key == Enter then
      if w.i < |w.buf| then Stopped(w.buf[w.i := '\0'], w.echo + "\n") else Fault(w.i)
    else if key == Backspace then
      Reading(w.buf, (w.i - 1) % 256, w.echo + [Backspace, ' ', Backspace])
    else if key == '\0' then
      w
    else if |w.buf| <= w.i then
      Fault(w.i)
    else
      var i := (w.i + 1) % 256;
      if i == |w.buf| - 1 then
        // `string[i + 1]` is the cell after the last one
        Fault(i + 1)
      else
        Reading(w.buf[w.i := key], i, w.echo + [key])
  }

  /**
   * Away from the two defects the editor as written and the corrected editor take the same
   * step: with at least two free cells after the index and no Backspace at the start, they
   * agree on whether the line goes on, on the buffer, the index and the echo.
   */
  lemma StepAsWrittenAgrees(buf: seq<char>, i: nat, echo: seq<char>, key: char)
    requires i < 255 && i + 2 < |buf|
    requires !(key == Backspace && i == 0)
    ensures var w, r := StepAsWritten(Reading(buf, i, echo), key), Step(Editing(buf, i, echo), key);
            && !w.Fault?
            && (w.Reading? <==> r.Editing?)
            && (w.Reading? ==> w.buf == r.buf && w.i == r.i && w.echo == r.echo)
            && (w.Stopped? ==> w.buf == r.buf && w.echo == r.echo)
  {
  }

  /** `ReadString` as written, over the keys, until it stops or faults. */
  function RunAsWritten(buf: seq<char>, keys: seq<char>): (r: Written)
    ensures r.Reading? ==> 0 <= r.i < 256 && |r.buf| == |buf|
  {
    if |keys| == 0 then Reading(buf, 0, [])
    else
      var w := RunAsWritten(buf, keys[..|keys| - 1]);
      if !w.Reading? then w else StepAsWritten(w, keys[|keys| - 1])
  }

  /** A key that the editor stores. */
  predicate Ordinary(key: char) {
    key != '\0' && key != Enter && key != Backspace
  }

  /** A Backspace on an empty line wraps the index to 255, and the next key is stored there. */
  lemma BackspaceAtStartWraps(buf: seq<char>, key: char)
    requires |buf| <= 255 && Ordinary(key)
    ensures RunAsWritten(buf, [Backspace, key]) == Fault(255)
  {
    assert [Backspace][..0] == [];
    assert RunAsWritten(buf, [Backspace]) == Reading(buf, 255, [Backspace, ' ', Backspace]);
    assert [Backspace, key][..1] == [Backspace];
  }

  /** The corrected editor ignores that Backspace and stores the key in the first cell. */
  lemma BackspaceAtStartIgnored(buf: seq<char>, key: char)
    requires 3 <= |buf| && Ordinary(key)
    ensures Run(buf, [Backspace, key]) == Editing(buf[0 := key], 1, [key])
  {
    assert [Backspace][..0] == [];
    assert Run(buf, [Backspace]) == Editing(buf, 0, []);
    assert [Backspace, key][..1] == [Backspace];
  }

  /** Before the buffer is full, ordinary keys fill it from the start with no wrap. */
  lemma {:induction false} WrittenFillsInOrder(buf: seq<char>, keys: seq<char>)
    requires 2 <= |buf| < 256 && |keys| < |buf| - 1
    requires forall k :: 0 <= k < |keys| ==> Ordinary(keys[k])
    ensures RunAsWritten(buf, keys).Reading? && RunAsWritten(buf, keys).i == |keys|
  {
    if |keys| > 0 {
      WrittenFillsInOrder(buf, keys[..|keys| - 1]);
    }
  }

  /** Filling all but the last cell makes `ReadString` as written store one past the buffer. */
  lemma FullBufferWritesPastEnd(buf: seq<char>, keys: seq<char>)
    requires 2 <= |buf| < 256 && |keys| == |buf| - 1
    requires forall k :: 0 <= k < |keys| ==> Ordinary(keys[k])
    ensures RunAsWritten(buf, keys) == Fault(|buf|)
  {
    WrittenFillsInOrder(buf, keys[..|keys| - 1]);
  }

  /** The corrected editor finishes on the same keys, with the typed text inside the buffer. */
  lemma FullBufferTerminatedInside(buf: seq<char>, keys: seq<char>)
    requires 2 <= |buf| && |keys| == |buf| - 1
    requires forall k :: 0 <= k < |keys| ==> Ordinary(keys[k])
    ensures Run(buf, keys).Finished?
    ensures CString(Run(buf, keys).buf) == keys
  {
    RunFillsInOrder(buf, keys[..|keys| - 1]);
    TypedOrdinary(keys);
    FinishedHoldsTyped(buf, keys);
  }

  /** Before the buffer is full, ordinary keys fill the corrected editor from the start. */
  lemma {:induction false} RunFillsInOrder(buf: seq<char>, keys: seq<char>)
    requires 2 <= |buf| && |keys| < |buf| - 1
    requires forall k :: 0 <= k < |keys| ==> Ordinary(keys[k])
    ensures Run(buf, keys).Editing? && Run(buf, keys).i == |keys|
  {
    if |keys| > 0 {
      RunFillsInOrder(buf, keys[..|keys| - 1]);
    }
  }

  /** Ordinary keys type themselves. */
  lemma {:induction false} TypedOrdinary(keys: seq<char>)
    requires forall k :: 0 <= k < |keys| ==> Ordinary(keys[k])
    ensures Typed(keys) == keys
  {
    if |keys| > 0 {
      TypedOrdinary(keys[..|keys| - 1]);
    }
  }
}
