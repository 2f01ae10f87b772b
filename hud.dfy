/** The owner's HUD line listing the magnets on the player
    (Assets/Scripts/PlayerStatusUI.cs). */
module StatusHud {
  import opened Types
  import opened AttachPoints
  import opened Magnets
  import opened Geometry

  /** One entry: the word's enum name between square brackets. */
  function Bracketed(w: MagnetWordId): (s: string)
  {
    "[" + WordName(w) + "]"
  }

  /** The HUD text: the entries in list order, separated by single spaces; the empty list
      gives the empty string. */
  function HudText(ws: seq<MagnetWordId>): (s: string)
    ensures s == "" <==> |ws| == 0
    decreases |ws|
  {
    if |ws| == 0 then ""
    else if |ws| == 1 then Bracketed(ws[0])
    else Bracketed(ws[0]) + " " + HudText(ws[1..])
  }

  /** A non-empty text opens with the first entry's '[' and closes with the last one's ']'. */
  lemma {:induction false} HudTextBrackets(ws: seq<MagnetWordId>)
    requires |ws| > 0
    ensures var s := HudText(ws); |s| >= 3 && s[0] == '[' && s[|s| - 1] == ']'
    decreases |ws|
  {
    if |ws| > 1 {
      HudTextBrackets(ws[1..]);
    }
  }

  /** Appending a word to a non-empty list appends a space and its entry to the text. */
  lemma {:induction false} HudTextAppend(ws: seq<MagnetWordId>, w: MagnetWordId)
    requires |ws| > 0
    ensures HudText(ws + [w]) == HudText(ws) + " " + Bracketed(w)
    decreases |ws|
  {
    if |ws| > 1 {
      assert (ws + [w])[1..] == ws[1..] + [w];
      HudTextAppend(ws[1..], w);
    } else {
      assert (ws + [w])[1..] == [w];
    }
  }

  /** How many times `c` occurs in `s`. */
  function CharCount(s: string, c: char): nat
    decreases |s|
  {
    if |s| == 0 then 0 else (if s[0] == c then 1 else 0) + CharCount(s[1..], c)
  }

  lemma {:induction false} CharCountConcat(a: string, b: string, c: char)
    ensures CharCount(a + b, c) == CharCount(a, c) + CharCount(b, c)
    decreases |a|
  {
    if |a| > 0 {
      assert (a + b)[0] == a[0] && (a + b)[1..] == a[1..] + b;
      CharCountConcat(a[1..], b, c);
    } else {
      assert a + b == b;
    }
  }

  /** A word name has no spaces. */
  lemma {:induction false} NoSpaceInLetters(s: string)
    requires forall i :: 0 <= i < |s| ==> IsLetter(s[i])
    ensures CharCount(s, ' ') == 0
    decreases |s|
  {
    if |s| > 0 {
      NoSpaceInLetters(s[1..]);
    }
  }

  lemma NoSpaceInEntry(w: MagnetWordId)
    ensures CharCount(Bracketed(w), ' ') == 0
  {
    NoSpaceInLetters(WordName(w));
    CharCountConcat("[", WordName(w), ' ');
    CharCountConcat("[" + WordName(w), "]", ' ');
  }

  /** n entries are separated by exactly n - 1 spaces: none leading, none trailing, none
      doubled. */
  lemma {:induction false} HudTextSpaces(ws: seq<MagnetWordId>)
    ensures CharCount(HudText(ws), ' ') == if |ws| == 0 then 0 else |ws| - 1
    decreases |ws|
  {
    if |ws| == 1 {
      NoSpaceInEntry(ws[0]);
    } else if |ws| > 1 {
      HudTextSpaces(ws[1..]);
      NoSpaceInEntry(ws[0]);
      CharCountConcat(Bracketed(ws[0]), " ", ' ');
      CharCountConcat(Bracketed(ws[0]) + " ", HudText(ws[1..]), ' ');
    }
  }

  /** The index of the first ']' in `s`, or |s| when there is none. */
  function CloseAt(s: string): (k: nat)
    ensures k <= |s|
    ensures k < |s| ==> s[k] == ']'
    ensures forall i :: 0 <= i < k ==> s[i] != ']'
    decreases |s|
  {
    if |s| == 0 then 0 else if s[0] == ']' then 0 else 1 + CloseAt(s[1..])
  }

  lemma {:induction false} CloseAfterLetters(name: string, rest: string)
    requires forall i :: 0 <= i < |name| ==> IsLetter(name[i])
    ensures CloseAt(name + "]" + rest) == |name|
    decreases |name|
  {
    if |name| > 0 {
      assert (name + "]" + rest)[1..] == name[1..] + "]" + rest;
      CloseAfterLetters(name[1..], rest);
    }
  }

  /** Reads a non-empty sequence of entries separated by single spaces. */
  function ParseEntries(s: string): Option<seq<MagnetWordId>>
    decreases |s|
  {
    if |s| == 0 || s[0] != '[' then None
    else
      var k := 1 + CloseAt(s[1..]);
      if k >= |s| then None
      else
        var w := WordFromName(s[1..k]);
        var rest := s[k + 1..];
        if w.None? then None
        else if rest == "" then Some([w.value])
        else if rest[0] != ' ' then None
        else
          var tail := ParseEntries(rest[1..]);
          if tail.None? then None else Some([w.value] + tail.value)
  }

  /** Reads a HUD text back into the list of words. */
  function Decode(s: string): Option<seq<MagnetWordId>> {
    if s == "" then Some([]) else ParseEntries(s)
  }

  /** Where the parts of an entry followed by `rest` sit. */
  lemma EntryLayout(name: string, rest: string)
    ensures var s := "[" + name + "]" + rest;
      && |s| == |name| + 2 + |rest| && s[0] == '['
      && s[1..1 + |name|] == name && s[|name| + 2..] == rest
  {
  }

  /** The first ']' after the opening bracket of an entry closes that entry. */
  lemma CloseOfEntry(name: string, rest: string)
    requires forall i :: 0 <= i < |name| ==> IsLetter(name[i])
    ensures var s := "[" + name + "]" + rest; CloseAt(s[1..]) == |name|
  {
    var s := "[" + name + "]" + rest;
    assert s[1..] == name + "]" + rest;
    CloseAfterLetters(name, rest);
  }

  /** One unfolding of the parser once the first entry's extent and word are known. */
  lemma ParseAt(s: string, name: string, rest: string, w: MagnetWordId)
    requires |s| == |name| + 2 + |rest| && s[0] == '[' && CloseAt(s[1..]) == |name|
    requires s[1..1 + |name|] == name && s[|name| + 2..] == rest
    requires WordFromName(name) == Some(w)
    ensures ParseEntries(s)
         == if rest == "" then Some([w])
            else if rest[0] != ' ' then None
            else var t := ParseEntries(rest[1..]); if t.None? then None else Some([w] + t.value)
  {
  }

  /** Parsing past a first entry whose name is a word's name: that word, then the end or
      a space and more. */
  lemma ParseFirst(name: string, w: MagnetWordId, rest: string)
    requires forall i :: 0 <= i < |name| ==> IsLetter(name[i])
    requires WordFromName(name) == Some(w)
    ensures ParseEntries("[" + name + "]" + rest)
         == if rest == "" then Some([w])
            else if rest[0] != ' ' then None
            else var t := ParseEntries(rest[1..]); if t.None? then None else Some([w] + t.value)
  {
    EntryLayout(name, rest);
    CloseOfEntry(name, rest);
    ParseAt("[" + name + "]" + rest, name, rest, w);
  }

  /** A single entry decodes to its word. */
  lemma DecodeSingle(w: MagnetWordId)
    ensures ParseEntries(HudText([w])) == Some([w])
  {
    WordNameRoundTrip(w);
    ParseFirst(WordName(w), w, "");
    assert "[" + WordName(w) + "]" + "" == HudText([w]);
  }

  /** The text of a list of two or more words, split at its first separator. */
  lemma HudTextCons(w: MagnetWordId, more: seq<MagnetWordId>)
    requires |more| > 0
    ensures HudText([w] + more) == "[" + WordName(w) + "]" + (" " + HudText(more))
  {
    var ws := [w] + more;
    assert ws[0] == w && ws[1..] == more;
  }

  /** Parsing past a first entry that is followed by a space. */
  lemma ParseSpaced(w: MagnetWordId, tail: string)
    ensures ParseEntries("[" + WordName(w) + "]" + (" " + tail))
         == var t := ParseEntries(tail); if t.None? then None else Some([w] + t.value)
  {
    WordNameRoundTrip(w);
    ParseFirst(WordName(w), w, " " + tail);
    assert (" " + tail)[1..] == tail;
  }

  /** An entry, a space and a decodable text decode to the word followed by the rest. */
  lemma DecodeCons(w: MagnetWordId, more: seq<MagnetWordId>)
    requires |more| > 0
    requires ParseEntries(HudText(more)) == Some(more)
    ensures ParseEntries(HudText([w] + more)) == Some([w] + more)
  {
    HudTextCons(w, more);
    ParseSpaced(w, HudText(more));
  }

  /** The text determines the list: decoding it gives back exactly the words shown. */
  lemma {:induction false} DecodeHudText(ws: seq<MagnetWordId>)
    ensures Decode(HudText(ws)) == Some(ws)
    decreases |ws|
  {
    if |ws| == 1 {
      assert ws == [ws[0]];
      DecodeSingle(ws[0]);
    } else if |ws| > 1 {
      DecodeHudText(ws[1..]);
      assert ws == [ws[0]] + ws[1..];
      DecodeCons(ws[0], ws[1..]);
    }
  }

  /** The text is a function of the list alone: different lists give different texts. */
  lemma HudTextInjective(a: seq<MagnetWordId>, b: seq<MagnetWordId>)
    requires HudText(a) == HudText(b)
    ensures a == b
  {
    DecodeHudText(a);
    DecodeHudText(b);
  }

  /** The builder's contents after `i` rounds of the loop over `ws`. */
  function Progress(ws: seq<MagnetWordId>, i: nat): string
    requires i <= |ws|
  {
    if i == 0 then "" else HudText(ws[..i]) + (if i < |ws| then " " else "")
  }

  /** One round appends the next entry, and a space unless it is the last. */
  lemma ProgressStep(ws: seq<MagnetWordId>, i: nat)
    requires i < |ws|
    ensures Progress(ws, i + 1) == Progress(ws, i) + Bracketed(ws[i]) + (if i < |ws| - 1 then " " else "")
  {
    var sep := if i < |ws| - 1 then " " else "";
    var entry := Bracketed(ws[i]);
    if i > 0 {
      var before := HudText(ws[..i]);
      HudTextPrefixStep(ws, i);
      assert Progress(ws, i + 1) == before + " " + entry + sep;
      assert Progress(ws, i) == before + " ";
    } else {
      assert ws[..1] == [ws[0]];
      assert Progress(ws, 1) == entry + sep;
    }
  }

  /** The text of a longer prefix appends a space and the next entry. */
  lemma HudTextPrefixStep(ws: seq<MagnetWordId>, i: nat)
    requires 0 < i < |ws|
    ensures HudText(ws[..i + 1]) == HudText(ws[..i]) + " " + Bracketed(ws[i])
  {
    HudTextAppend(ws[..i], ws[i]);
    assert ws[..i] + [ws[i]] == ws[..i + 1];
  }

  /** The StringBuilder loop of Update: the empty list gives ""; otherwise each entry is
      appended, followed by a space unless it is the last. */
  method FormatMagnetList(list: seq<Magnet>) returns (text: string)
    ensures text == HudText(WordsOf(list))
  {
    if |list| == 0 {
      return "";
    }
    ghost var ws := WordsOf(list);
    var sb := "";
    for i := 0 to |list|
      invariant sb == Progress(ws, i)
    {
      ProgressStep(ws, i);
      ghost var before := sb;
      sb := sb + "[" + WordName(list[i].wordId) + "]";
      assert sb == before + Bracketed(ws[i]);
      if i < |list| - 1 {
        sb := sb + " ";
      }
    }
    assert ws[..|ws|] == ws;
    text := sb;
  }

  class PlayerStatusUI {
    const playerMagnetAttach: AttachPoint?<Magnet>
    /** Whether the magnetText reference is assigned. */
    const hasMagnetText: bool
    var text: string

    constructor (playerMagnetAttach: AttachPoint?<Magnet>, hasMagnetText: bool)
      ensures this.playerMagnetAttach == playerMagnetAttach && this.hasMagnetText == hasMagnetText
      ensures text == ""
    {
      this.playerMagnetAttach := playerMagnetAttach;
      this.hasMagnetText := hasMagnetText;
      text := "";
    }

    /** Update: for the owner, with both references assigned, show the attached magnets;
        otherwise leave the text as it is. */
    method Update(isOwner: bool)
      modifies this`text
      ensures !isOwner || !hasMagnetText || playerMagnetAttach == null ==> text == old(text)
      ensures isOwner && hasMagnetText && playerMagnetAttach != null ==>
        text == HudText(AttachedWords(playerMagnetAttach))
    {
      if !isOwner || !hasMagnetText || playerMagnetAttach == null {
        return;
      }
      text := FormatMagnetList(playerMagnetAttach.magnets);
    }
  }

  /** The attach point's list is filled only on the server and is not replicated. On a
      client that is not the host, registering a magnet with the player's attach point
      returns early, so the owner's HUD stays empty although a magnet has stuck. */
  method ClientHudIsEmpty() returns (text: string, hostText: string)
    ensures text == "" && hostText == "[Warmth]"
  {
    var m := new Magnet(Warmth, 0, 1, 10.0, Zero, Identity);

    var clientPoint := new AttachPoint<Magnet>();
    clientPoint.Register(m, false);
    var clientUi := new PlayerStatusUI(clientPoint, true);
    clientUi.Update(true);
    text := clientUi.text;

    var hostPoint := new AttachPoint<Magnet>();
    hostPoint.Register(m, true);
    var hostUi := new PlayerStatusUI(hostPoint, true);
    hostUi.Update(true);
    hostText := hostUi.text;
  }
}
