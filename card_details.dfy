/** The Payment Cards section of src/components/CardDetails.jsx: the new-card form's input
    normalisers, the per-card animation state and detail toggles, the default-card rule, the
    utilisation figures and the summary totals. */
module CardDetails {
  import opened Common

  // ---------------------------------------------------------------------------------------
  // Input normalisers of `handleNewCardInput`

  /** A character of the JavaScript regular-expression class `\s`, which is also the set that
      `String.prototype.trim` removes (white space and line terminators). */
  predicate IsJsSpace(c: char): (b: bool)
    ensures c as int < 128 ==> (b <==> c in "\t\n\U{000B}\U{000C}\r ")
    ensures b ==> !IsDigit(c)
  {
    c == '\t' || c == '\n' || c == '\U{000B}' || c == '\U{000C}' || c == '\r' || c == ' '
    || c == '\U{00A0}' || c == '\U{1680}' || ('\U{2000}' <= c <= '\U{200A}')
    || c == '\U{2028}' || c == '\U{2029}' || c == '\U{202F}' || c == '\U{205F}'
    || c == '\U{3000}' || c == '\U{FEFF}'
  }

  /** A character of the class `\d`: an ASCII digit. */
  predicate IsDigit(c: char) {
    '0' <= c <= '9'
  }

  /** `s.replace(/\s/g, '')`. */
  function StripWhitespace(s: string): (r: string)
    ensures |r| <= |s|
    ensures forall i :: 0 <= i < |r| ==> !IsJsSpace(r[i])
    ensures forall c :: c in s && !IsJsSpace(c) ==> c in r
  {
    if s == [] then []
    else (if IsJsSpace(s[0]) then [] else [s[0]]) + StripWhitespace(s[1..])
  }

  /** `s.replace(/\D/g, '')`. */
  function Digits(s: string): (r: string)
    ensures |r| <= |s|
    ensures forall i :: 0 <= i < |r| ==> IsDigit(r[i])
    ensures forall c :: c in s && IsDigit(c) ==> c in r
  {
    if s == [] then []
    else (if IsDigit(s[0]) then [s[0]] else []) + Digits(s[1..])
  }

  /** The white-space strip works piece by piece, so it keeps the other characters in order
      and with their repetitions. */
  lemma {:induction false} StripWhitespaceAppend(a: string, b: string)
    ensures StripWhitespace(a + b) == StripWhitespace(a) + StripWhitespace(b)
    decreases |a|
  {
    if a != [] {
      assert (a + b)[0] == a[0] && (a + b)[1..] == a[1..] + b;
      StripWhitespaceAppend(a[1..], b);
      var x := if IsJsSpace(a[0]) then [] else [a[0]];
      assert StripWhitespace(a + b) == x + StripWhitespace(a[1..] + b);
    } else {
      assert a + b == b;
    }
  }

  /** The strip adds nothing: each character it returns is one of the input's. */
  lemma {:induction false} StripWhitespaceFromInput(s: string)
    ensures forall c :: c in StripWhitespace(s) ==> c in s
    decreases |s|
  {
    if s != [] {
      StripWhitespaceFromInput(s[1..]);
      assert forall c :: c in s[1..] ==> c in s;
    }
  }

  /** The digit filter adds nothing: each digit it returns is one of the input's. */
  lemma {:induction false} DigitsFromInput(s: string)
    ensures forall c :: c in Digits(s) ==> c in s
    decreases |s|
  {
    if s != [] {
      DigitsFromInput(s[1..]);
      assert forall c :: c in s[1..] ==> c in s;
    }
  }

  /** The digit filter works piece by piece, so it keeps the digits in order and with their
      repetitions. */
  lemma {:induction false} DigitsAppend(a: string, b: string)
    ensures Digits(a + b) == Digits(a) + Digits(b)
    decreases |a|
  {
    if a != [] {
      assert (a + b)[0] == a[0] && (a + b)[1..] == a[1..] + b;
      DigitsAppend(a[1..], b);
      var x := if IsDigit(a[0]) then [a[0]] else [];
      assert Digits(a + b) == x + Digits(a[1..] + b);
      assert Digits(a) == x + Digits(a[1..]);
    } else {
      assert a + b == b;
    }
  }

  /** `s.replace(/(.{4})/g, '$1 ')` on text without line terminators (which `.` does not
      match): a space after every complete run of four characters, from the left. */
  function InsertSpaces(s: string): string
    decreases |s|
  {
    if |s| < 4 then s else s[..4] + " " + InsertSpaces(s[4..])
  }

  function TrimStart(s: string): (r: string)
    ensures r == [] || !IsJsSpace(r[0])
  {
    if s != [] && IsJsSpace(s[0]) then TrimStart(s[1..]) else s
  }

  function TrimEnd(s: string): (r: string)
    ensures r == [] || !IsJsSpace(r[|r| - 1])
  {
    if s != [] && IsJsSpace(s[|s| - 1]) then TrimEnd(s[..|s| - 1]) else s
  }

  /** `s.trim()`. */
  function Trim(s: string): (r: string)
    ensures r == [] || (!IsJsSpace(r[0]) && !IsJsSpace(r[|r| - 1]))
  {
    var e := TrimEnd(s);
    TrimStartKeepsEnd(e);
    TrimStart(e)
  }

  lemma {:induction false} TrimStartSlice(s: string)
    ensures exists i :: 0 <= i <= |s| && TrimStart(s) == s[i..] && forall k :: 0 <= k < i ==> IsJsSpace(s[k])
    decreases |s|
  {
    if s != [] && IsJsSpace(s[0]) {
      TrimStartSlice(s[1..]);
      var i :| 0 <= i <= |s[1..]| && TrimStart(s[1..]) == s[1..][i..] && forall k :: 0 <= k < i ==> IsJsSpace(s[1..][k]);
      assert s[1..][i..] == s[i + 1..];
      assert forall k :: 0 <= k < i + 1 ==> IsJsSpace(s[k]) by {
        forall k | 0 <= k < i + 1 ensures IsJsSpace(s[k]) {
          if k > 0 { assert s[k] == s[1..][k - 1]; }
        }
      }
    } else {
      assert s == s[0..];
    }
  }

  lemma {:induction false} TrimEndSlice(s: string)
    ensures exists j :: 0 <= j <= |s| && TrimEnd(s) == s[..j] && forall k :: j <= k < |s| ==> IsJsSpace(s[k])
    decreases |s|
  {
    if s != [] && IsJsSpace(s[|s| - 1]) {
      var p := s[..|s| - 1];
      TrimEndSlice(p);
      var j :| 0 <= j <= |p| && TrimEnd(p) == p[..j] && forall k :: j <= k < |p| ==> IsJsSpace(p[k]);
      assert p[..j] == s[..j];
      assert forall k :: j <= k < |s| ==> IsJsSpace(s[k]) by {
        forall k | j <= k < |s| ensures IsJsSpace(s[k]) {
          if k < |p| { assert s[k] == p[k]; }
        }
      }
    } else {
      assert s == s[..|s|];
    }
  }

  /** Positions `i <= j` of `s` with nothing but white space before `i` and from `j` on. */
  predicate SpaceOutside(s: string, i: int, j: int) {
    0 <= i <= j <= |s| && (forall k :: 0 <= k < i ==> IsJsSpace(s[k])) && (forall k :: j <= k < |s| ==> IsJsSpace(s[k]))
  }

  /** `trim` removes the white space at both ends and nothing else: the result is one
      stretch of the input, with only white space before and after it, and it neither starts
      nor ends with white space. */
  lemma TrimSlice(s: string)
    ensures exists i, j :: SpaceOutside(s, i, j) && Trim(s) == s[i..j]
  {
    TrimEndSlice(s);
    var j :| 0 <= j <= |s| && TrimEnd(s) == s[..j] && forall k :: j <= k < |s| ==> IsJsSpace(s[k]);
    var e := s[..j];
    TrimStartSlice(e);
    var i :| 0 <= i <= |e| && TrimStart(e) == e[i..] && forall k :: 0 <= k < i ==> IsJsSpace(e[k]);
    assert e[i..] == s[i..j];
    assert forall k :: 0 <= k < i ==> IsJsSpace(s[k]) by {
      forall k | 0 <= k < i ensures IsJsSpace(s[k]) { assert s[k] == e[k]; }
    }
    assert Trim(s) == s[i..j];
    assert SpaceOutside(s, i, j);
  }

  lemma {:induction false} TrimStartKeepsEnd(s: string)
    requires s == [] || !IsJsSpace(s[|s| - 1])
    ensures TrimStart(s) == [] || !IsJsSpace(TrimStart(s)[|TrimStart(s)| - 1])
    decreases |s|
  {
    if s != [] && IsJsSpace(s[0]) {
      TrimStartKeepsEnd(s[1..]);
    }
  }

  /** The intended shape of a card number: groups of four separated by single spaces, the last
      group holding the one to four characters left over. */
  function Grouped(d: string): string
    decreases |d|
  {
    if |d| <= 4 then d else d[..4] + " " + Grouped(d[4..])
  }

  /** `v.replace(/\s/g, '').replace(/(.{4})/g, '$1 ').trim()`. */
  function FormatCardNumber(v: string): (r: string)
    ensures r == Grouped(StripWhitespace(v))
  {
    var d := StripWhitespace(v);
    TrimInsertedSpaces(d);
    Trim(InsertSpaces(d))
  }

  /** Trimming removes the one space that `InsertSpaces` can leave at the end, and nothing
      else, from text without white space. */
  lemma TrimInsertedSpaces(d: string)
    requires forall i :: 0 <= i < |d| ==> !IsJsSpace(d[i])
    ensures Trim(InsertSpaces(d)) == Grouped(d)
  {
    InsertSpacesGrouped(d);
    if d != [] {
      GroupedEnds(d);
      var g := Grouped(d);
      TrimNothing(g);
      if |d| % 4 == 0 {
        var h := g + " ";
        assert h[..|h| - 1] == g;
        assert TrimEnd(h) == TrimEnd(g) == g;
      }
    }
  }

  lemma {:induction false} TrimNothing(s: string)
    requires s == [] || (!IsJsSpace(s[0]) && !IsJsSpace(s[|s| - 1]))
    ensures Trim(s) == s
  {
  }

  /** The trailing space that `InsertSpaces` leaves after a last complete group. */
  lemma {:induction false} InsertSpacesGrouped(d: string)
    ensures InsertSpaces(d) == if |d| > 0 && |d| % 4 == 0 then Grouped(d) + " " else Grouped(d)
    decreases |d|
  {
    if |d| > 4 {
      InsertSpacesGrouped(d[4..]);
    }
  }

  /** A group of characters starts and ends with the first and last character. */
  lemma {:induction false} GroupedEnds(d: string)
    requires d != []
    ensures Grouped(d) != [] && Grouped(d)[0] == d[0] && Grouped(d)[|Grouped(d)| - 1] == d[|d| - 1]
    decreases |d|
  {
    if |d| > 4 {
      GroupedEnds(d[4..]);
    }
  }

  /** The space layout of `Grouped`: a space at exactly every fifth position, every other
      position holding the next character of `d` in order. */
  lemma {:induction false} GroupedLayout(d: string)
    requires forall i :: 0 <= i < |d| ==> d[i] != ' '
    ensures |Grouped(d)| == if d == [] then 0 else |d| + (|d| - 1) / 4
    ensures forall i :: 0 <= i < |Grouped(d)| ==> (Grouped(d)[i] == ' ' <==> i % 5 == 4)
    ensures forall i :: 0 <= i < |Grouped(d)| && i % 5 != 4 ==> Grouped(d)[i] == d[i - i / 5]
    decreases |d|
  {
    if |d| > 4 {
      var rest := d[4..];
      GroupedLayout(rest);
      var g := Grouped(d);
      assert g == d[..4] + " " + Grouped(rest);
      forall i | 5 <= i < |g|
        ensures g[i] == Grouped(rest)[i - 5]
        ensures i % 5 == (i - 5) % 5 && i - i / 5 == 4 + ((i - 5) - (i - 5) / 5)
      {
      }
    }
  }

  /** The spaces of a grouped number are the ones the grouping inserts. */
  function RemoveSpaces(s: string): (r: string)
    ensures |r| <= |s|
  {
    if s == [] then [] else (if s[0] == ' ' then [] else [s[0]]) + RemoveSpaces(s[1..])
  }

  lemma {:induction false} RemoveSpacesAppend(a: string, b: string)
    ensures RemoveSpaces(a + b) == RemoveSpaces(a) + RemoveSpaces(b)
    decreases |a|
  {
    if a != [] {
      assert (a + b)[0] == a[0] && (a + b)[1..] == a[1..] + b;
      RemoveSpacesAppend(a[1..], b);
      var x := if a[0] == ' ' then [] else [a[0]];
      assert RemoveSpaces(a + b) == x + RemoveSpaces(a[1..] + b);
      assert RemoveSpaces(a) == x + RemoveSpaces(a[1..]);
    } else {
      assert a + b == b;
    }
  }

  lemma {:induction false} RemoveSpacesNone(d: string)
    requires forall i :: 0 <= i < |d| ==> d[i] != ' '
    ensures RemoveSpaces(d) == d
    decreases |d|
  {
    if d != [] {
      RemoveSpacesNone(d[1..]);
    }
  }

  lemma {:induction false} GroupedRemoveSpaces(d: string)
    requires forall i :: 0 <= i < |d| ==> d[i] != ' '
    ensures RemoveSpaces(Grouped(d)) == d
    decreases |d|
  {
    if |d| <= 4 {
      RemoveSpacesNone(d);
    } else {
      GroupedRemoveSpaces(d[4..]);
      RemoveSpacesAppend(d[..4] + " ", Grouped(d[4..]));
      RemoveSpacesAppend(d[..4], " ");
      RemoveSpacesNone(d[..4]);
      assert RemoveSpaces(" ") == [];
      assert d[..4] + d[4..] == d;
    }
  }

  /** The card number field: removing the spaces of the output gives the input without its
      white space; the spaces sit at every fifth position and nowhere else, so the groups have
      four characters except the last, which has one to four; there is no leading or trailing
      space. */
  lemma CardNumberFormat(v: string)
    ensures var r := FormatCardNumber(v);
            && RemoveSpaces(r) == StripWhitespace(v)
            && (forall i :: 0 <= i < |r| ==> (r[i] == ' ' <==> i % 5 == 4))
            && (r == [] || (r[0] != ' ' && r[|r| - 1] != ' '))
            && (r != [] ==> 1 <= |r| - (|r| - 1) / 5 * 5 <= 4)
  {
    var d := StripWhitespace(v);
    assert forall i :: 0 <= i < |d| ==> d[i] != ' ';
    GroupedLayout(d);
    GroupedRemoveSpaces(d);
  }

  /** `v.replace(/\D/g, '').replace(/(\d{2})(\d)/, '$1/$2')`: an all-digit string matches at
      its start as soon as it has three digits. */
  function FormatExpiry(v: string): (r: string)
    ensures var d := Digits(v);
            && (|d| >= 3 ==> |r| == |d| + 1 && r[..2] == d[..2] && r[2] == '/' && r[3..] == d[2..])
            && (|d| < 3 ==> r == d)
            && ('/' in r <==> |d| >= 3)
            && (forall i, j :: 0 <= i < |r| && 0 <= j < |r| && r[i] == '/' && r[j] == '/' ==> i == j)
  {
    var d := Digits(v);
    if |d| >= 3 then
      var r := d[..2] + "/" + d[2..];
      assert forall i :: 0 <= i < |r| && i != 2 ==> IsDigit(r[i]);
      r
    else
      assert '/' !in d by { assert forall i :: 0 <= i < |d| ==> IsDigit(d[i]); }
      d
  }

  /** `v.replace(/\D/g, '').slice(0, 4)`: the first (at most four) digits. */
  function FormatCvc(v: string): (r: string)
    ensures |r| <= 4 && r <= Digits(v)
    ensures |r| < 4 ==> r == Digits(v)
  {
    var d := Digits(v);
    if |d| <= 4 then d else d[..4]
  }

  /** The inputs of the new-card form. */
  datatype FormField = NumberField | ExpiryField | CvcField | NameField

  datatype NewCard = NewCard(number: string, expiry: string, cvc: string, name: string, focus: string)

  /** `handleNewCardInput`: the field's normaliser, then an update of that field only. */
  function WithInput(form: NewCard, field: FormField, value: string): (r: NewCard)
    ensures field == NumberField ==> r == form.(number := FormatCardNumber(value))
    ensures field == ExpiryField ==> r == form.(expiry := FormatExpiry(value))
    ensures field == CvcField ==> r == form.(cvc := FormatCvc(value))
    ensures field == NameField ==> r == form.(name := value)
  {
    match field
    case NumberField => form.(number := FormatCardNumber(value))
    case ExpiryField => form.(expiry := FormatExpiry(value))
    case CvcField => form.(cvc := FormatCvc(value))
    case NameField => form.(name := value)
  }

  /** Typing the same text into a field twice leaves the form as typing it once. */
  lemma WithInputIdempotent(form: NewCard, field: FormField, value: string)
    ensures WithInput(WithInput(form, field, value), field, value) == WithInput(form, field, value)
  {
  }

  // ---------------------------------------------------------------------------------------
  // Cards and their animation state

  datatype Card = Card(
    id: int, number: string, expiry: string, cvc: string, name: string, issuer: string,
    balance: real, limit: real, isDefault: bool, lastUsed: string, status: string)

  /** The two cards the section starts with. */
  function SampleCards(): seq<Card> {
    [ Card(1, "4111111111111111", "12/28", "123", "John Doe", "visa", 2500.0, 5000.0, true, "2024-01-15", "active"),
      Card(2, "5555555555554444", "06/27", "321", "John Doe", "mastercard", 1200.5, 3000.0, false, "2024-01-10", "active") ]
  }

  function Ids(cards: seq<Card>): set<int> {
    set c | c in cards :: c.id
  }

  /** `setDefaultCard`'s update of `cards`. */
  function SetDefault(cards: seq<Card>, id: int): (r: seq<Card>)
    ensures |r| == |cards|
    ensures forall k :: 0 <= k < |r| ==> (r[k].isDefault <==> cards[k].id == id)
    ensures forall k :: 0 <= k < |r| ==> r[k].(isDefault := cards[k].isDefault) == cards[k]
  {
    seq(|cards|, k requires 0 <= k < |cards| => cards[k].(isDefault := cards[k].id == id))
  }

  /** With distinct ids, a card of the chosen id ends up the one and only default. */
  lemma SingleDefault(cards: seq<Card>, id: int)
    requires forall i, j :: 0 <= i < j < |cards| ==> cards[i].id != cards[j].id
    requires id in Ids(cards)
    ensures var r := SetDefault(cards, id);
            && (exists k :: 0 <= k < |r| && r[k].isDefault)
            && (forall i, j :: 0 <= i < |r| && 0 <= j < |r| && r[i].isDefault && r[j].isDefault ==> i == j)
  {
    var c :| c in cards && c.id == id;
    var k :| 0 <= k < |cards| && cards[k] == c;
    assert SetDefault(cards, id)[k].isDefault;
  }

  /** The shadow behind a card's container. */
  datatype Shadow = Resting | Raised

  /** One card's entry of `cardStates`. */
  datatype CardState = CardState(
    isFlipped: bool, containerHovered: bool, creditCardHovered: bool,
    containerScale: real, containerShadow: Shadow,
    rotateX: real, rotateY: real, scale: real, translateZ: real, translateX: real, translateY: real,
    glow: real)

  /** The entry the initialising effect gives every card. */
  function InitialState(): CardState {
    CardState(false, false, false, 1.0, Resting, 0.0, 0.0, 1.0, 0.0, 0.0, 0.0, 0.0)
  }

  /** The initialising effect, run whenever `cards` changes: a fresh entry per card id. */
  function InitialStates(cards: seq<Card>): (m: map<int, CardState>)
    ensures m.Keys == Ids(cards)
    ensures forall k :: k in m ==> m[k] == InitialState()
  {
    map k | k in Ids(cards) :: InitialState()
  }

  /** `flipCard`'s update of one entry. */
  function Flipped(s: CardState): (r: CardState)
    ensures r.isFlipped == !s.isFlipped
    ensures r.(isFlipped := s.isFlipped) == s
  {
    s.(isFlipped := !s.isFlipped)
  }

  /** `toggleCreditCard3D`'s update of one entry: an inactive card is raised and tilted, an
      active one is put back flat; flip and container fields are kept. */
  function Toggled3D(s: CardState): (r: CardState)
    ensures r.creditCardHovered == !s.creditCardHovered
    ensures r.isFlipped == s.isFlipped && r.containerHovered == s.containerHovered
    ensures r.containerScale == s.containerScale && r.containerShadow == s.containerShadow
    ensures r.translateX == 0.0 && r.translateY == 0.0
    ensures r.creditCardHovered ==>
              r.rotateX == 10.0 && r.rotateY == 15.0 && r.scale == 1.4 && r.translateZ == 80.0 && r.glow == 1.0
    ensures !r.creditCardHovered ==>
              r.rotateX == 0.0 && r.rotateY == 0.0 && r.scale == 1.0 && r.translateZ == 0.0 && r.glow == 0.0
  {
    var active := !s.creditCardHovered;
    s.(creditCardHovered := active,
       rotateX := if active then 10.0 else 0.0,
       rotateY := if active then 15.0 else 0.0,
       scale := if active then 1.4 else 1.0,
       translateZ := if active then 80.0 else 0.0,
       translateX := 0.0,
       translateY := 0.0,
       glow := if active then 1.0 else 0.0)
  }

  /** Activating and then deactivating brings a flat card back to exactly where it was. */
  lemma Toggle3DRoundTrip(s: CardState)
    requires !s.creditCardHovered
    requires s.rotateX == 0.0 && s.rotateY == 0.0 && s.scale == 1.0 && s.translateZ == 0.0
    requires s.translateX == 0.0 && s.translateY == 0.0 && s.glow == 0.0
    ensures Toggled3D(Toggled3D(s)) == s
  {
  }

  /** Flipping twice restores the entry, and after one 3D toggle the entry alternates between
      two fixed states. */
  lemma CardClickTwice(s: CardState)
    ensures Flipped(Flipped(s)) == s
    ensures Toggled3D(Toggled3D(Toggled3D(s))) == Toggled3D(s)
  {
  }

  /** The hover handlers of a card's container. */
  function Hovered(s: CardState, inside: bool): (r: CardState)
    ensures r.containerHovered == inside
    ensures r.containerShadow == (if inside then Raised else Resting)
    ensures r.(containerHovered := s.containerHovered, containerShadow := s.containerShadow) == s
  {
    s.(containerHovered := inside, containerShadow := if inside then Raised else Resting)
  }

  /** `showDetails[id]` read in a condition: absent counts as hidden. */
  predicate Shown(details: map<int, bool>, id: int) {
    id in details && details[id]
  }

  /** `toggleCardDetails`'s update of `showDetails`. */
  function ToggleDetails(details: map<int, bool>, id: int): (r: map<int, bool>)
    ensures Shown(r, id) <==> !Shown(details, id)
    ensures forall k :: k != id ==> (k in r <==> k in details) && (k in r ==> r[k] == details[k])
  {
    details[id := !Shown(details, id)]
  }

  /** Toggling one card's details twice shows and hides exactly what was shown before. */
  lemma ToggleDetailsTwice(details: map<int, bool>, id: int)
    ensures forall k :: Shown(ToggleDetails(ToggleDetails(details, id), id), k) <==> Shown(details, k)
  {
  }

  // ---------------------------------------------------------------------------------------
  // Utilisation and summary figures

  /** `getUtilization(balance, limit)`: `(balance / limit) * 100`. */
  function Utilization(balance: real, limit: real): (u: Ratio)
    ensures u.Finite? <==> limit != 0.0
    ensures u.Finite? ==> u.value * limit == balance * 100.0
    ensures u == NaN <==> balance == 0.0 && limit == 0.0
  {
    Scale(Divide(balance, limit), 100.0)
  }

  /** `getUtilizationColor`, and the bar's colour, which uses the same thresholds. */
  function UtilizationColour(u: Ratio): (t: Tone)
    ensures t == Red <==> AtLeast(u, 80.0)
    ensures t == Yellow <==> !AtLeast(u, 80.0) && AtLeast(u, 60.0)
    ensures t == Green <==> !AtLeast(u, 60.0)
  {
    if AtLeast(u, 80.0) then Red
    else if AtLeast(u, 60.0) then Yellow
    else Green
  }

  /** For a positive limit the colour is a function of the balance's share of the limit. */
  lemma UtilizationColourByBalance(balance: real, limit: real)
    requires limit > 0.0
    ensures UtilizationColour(Utilization(balance, limit)) == Red <==> balance * 100.0 >= 80.0 * limit
    ensures UtilizationColour(Utilization(balance, limit)) == Yellow <==>
              60.0 * limit <= balance * 100.0 < 80.0 * limit
    ensures UtilizationColour(Utilization(balance, limit)) == Green <==> balance * 100.0 < 60.0 * limit
  {
    var u := Utilization(balance, limit);
    var v := u.value;
    assert u == Finite(v) && v * limit == balance * 100.0;
    assert UtilizationColour(u) == Red <==> v >= 80.0;
    assert UtilizationColour(u) == Green <==> v < 60.0;
    CompareScaled(v, limit, balance * 100.0, 80.0);
    CompareScaled(v, limit, balance * 100.0, 60.0);
  }

  /** A zero limit: a positive balance is shown red (utilisation +Infinity), a zero balance
      green (NaN compares false). */
  lemma ZeroLimitColours(balance: real)
    ensures balance > 0.0 ==> UtilizationColour(Utilization(balance, 0.0)) == Red
    ensures balance <= 0.0 ==> UtilizationColour(Utilization(balance, 0.0)) == Green
  {
  }

  /** `Math.min(utilization, 100)`, the bar width. */
  function BarWidth(u: Ratio): (w: Ratio)
    ensures w.Finite? ==> w.value <= 100.0
    ensures AtLeast(u, 100.0) ==> w == Finite(100.0)
    ensures u.Finite? && u.value < 100.0 ==> w == u
  {
    MinWith(u, 100.0)
  }

  /** `cards.reduce((sum, card) => sum + card.balance, 0)`. */
  function TotalBalance(cards: seq<Card>): (t: real)
    ensures (forall k :: 0 <= k < |cards| ==> cards[k].balance >= 0.0) ==> t >= 0.0
  {
    if cards == [] then 0.0 else TotalBalance(cards[..|cards| - 1]) + cards[|cards| - 1].balance
  }

  /** `cards.reduce((sum, card) => sum + card.limit, 0)`. */
  function TotalLimit(cards: seq<Card>): (t: real)
    ensures (forall k :: 0 <= k < |cards| ==> cards[k].limit >= 0.0) ==> t >= 0.0
  {
    if cards == [] then 0.0 else TotalLimit(cards[..|cards| - 1]) + cards[|cards| - 1].limit
  }

  /** `cards.reduce((sum, card) => sum + (card.limit - card.balance), 0)`. */
  function AvailableCredit(cards: seq<Card>): (t: real)
    ensures (forall k :: 0 <= k < |cards| ==> cards[k].balance <= cards[k].limit) ==> t >= 0.0
  {
    if cards == [] then 0.0
    else AvailableCredit(cards[..|cards| - 1]) + (cards[|cards| - 1].limit - cards[|cards| - 1].balance)
  }

  /** Available credit is the total limit less the total balance. */
  lemma {:induction false} AvailableIsLimitLessBalance(cards: seq<Card>)
    ensures AvailableCredit(cards) == TotalLimit(cards) - TotalBalance(cards)
  {
    if cards != [] {
      AvailableIsLimitLessBalance(cards[..|cards| - 1]);
    }
  }

  /** `cards.reduce((sum, card) => sum + getUtilization(card.balance, card.limit), 0)`. */
  function UtilizationSum(cards: seq<Card>): (r: Ratio)
    ensures cards == [] ==> r == Finite(0.0)
    ensures (exists k :: 0 <= k < |cards| && Utilization(cards[k].balance, cards[k].limit) == NaN) ==> r == NaN
  {
    if cards == [] then Finite(0.0)
    else
      var c := cards[|cards| - 1];
      Add(UtilizationSum(cards[..|cards| - 1]), Utilization(c.balance, c.limit))
  }

  /** With every limit non-zero the utilisation sum is a finite number. */
  lemma {:induction false} UtilizationSumFinite(cards: seq<Card>)
    requires forall c :: c in cards ==> c.limit != 0.0
    ensures UtilizationSum(cards).Finite?
  {
    if cards != [] {
      var init := cards[..|cards| - 1];
      assert forall c :: c in init ==> c in cards;
      assert cards[|cards| - 1] in cards;
      UtilizationSumFinite(init);
    }
  }

  /** The Avg Utilization figure: the sum over the number of cards, or 0 without cards. */
  function AverageUtilization(cards: seq<Card>): (a: Ratio)
    ensures cards == [] ==> a == Finite(0.0)
    ensures cards != [] && UtilizationSum(cards).Finite? ==>
              a.Finite? && a.value * (|cards| as real) == UtilizationSum(cards).value
    ensures cards != [] && !UtilizationSum(cards).Finite? ==> a == UtilizationSum(cards)
  {
    if |cards| > 0 then Scale(UtilizationSum(cards), 1.0 / (|cards| as real)) else Finite(0.0)
  }

  // ---------------------------------------------------------------------------------------
  // The component's state

  class CardSection {
    var cards: seq<Card>
    var cardStates: map<int, CardState>
    var showDetails: map<int, bool>
    var animatingCard: Option<int>
    var newCard: NewCard
    var isAddingCard: bool
    var alert: string

    /** Mounting: the two sample cards, each with a fresh animation entry. */
    constructor ()
      ensures cards == SampleCards() && cardStates == InitialStates(cards)
      ensures showDetails == map[] && animatingCard.None? && !isAddingCard && alert == ""
      ensures newCard == NewCard("", "", "", "", "")
    {
      cards := SampleCards();
      cardStates := InitialStates(SampleCards());
      showDetails := map[];
      animatingCard := None;
      newCard := NewCard("", "", "", "", "");
      isAddingCard := false;
      alert := "";
    }

    /** A click on a card: `flipCard` then `toggleCreditCard3D`, on its entry only. */
    method ClickCard(id: int)
      requires id in cardStates
      modifies this
      ensures cardStates == old(cardStates)[id := Toggled3D(Flipped(old(cardStates)[id]))]
      ensures cards == old(cards) && showDetails == old(showDetails)
      ensures animatingCard == old(animatingCard) && newCard == old(newCard)
      ensures isAddingCard == old(isAddingCard) && alert == old(alert)
    {
      cardStates := cardStates[id := Flipped(cardStates[id])];
      cardStates := cardStates[id := Toggled3D(cardStates[id])];
    }

    /** The container's mouse enter (`inside`) and leave handlers. */
    method Hover(id: int, inside: bool)
      requires id in cardStates
      modifies this
      ensures cardStates == old(cardStates)[id := Hovered(old(cardStates)[id], inside)]
      ensures cards == old(cards) && showDetails == old(showDetails)
      ensures animatingCard == old(animatingCard) && newCard == old(newCard)
      ensures isAddingCard == old(isAddingCard) && alert == old(alert)
    {
      cardStates := cardStates[id := Hovered(cardStates[id], inside)];
    }

    /** `toggleCardDetails`: flips one card's detail panel and starts its bounce. */
    method ToggleCardDetails(id: int)
      modifies this
      ensures showDetails == ToggleDetails(old(showDetails), id)
      ensures animatingCard == Some(id)
      ensures cards == old(cards) && cardStates == old(cardStates) && newCard == old(newCard)
      ensures isAddingCard == old(isAddingCard) && alert == old(alert)
    {
      showDetails := showDetails[id := !(id in showDetails && showDetails[id])];
      animatingCard := Some(id);
    }

    /** The bounce timer: the animating card is cleared. */
    method EndBounce()
      modifies this
      ensures animatingCard.None?
      ensures cards == old(cards) && cardStates == old(cardStates)
      ensures showDetails == old(showDetails) && newCard == old(newCard)
      ensures isAddingCard == old(isAddingCard) && alert == old(alert)
    {
      animatingCard := None;
    }

    /** `setDefaultCard` as intended: the chosen card becomes the only default and pulses; the
        other cards' animation entries are kept. */
    method SetDefaultCard(id: int)
      requires id in cardStates
      modifies this
      ensures cards == SetDefault(old(cards), id)
      ensures cardStates == old(cardStates)[id := old(cardStates)[id].(containerScale := 1.05)]
      ensures showDetails == old(showDetails) && animatingCard == old(animatingCard)
      ensures newCard == old(newCard) && isAddingCard == old(isAddingCard) && alert == old(alert)
    {
      cards := SetDefault(cards, id);
      cardStates := cardStates[id := cardStates[id].(containerScale := 1.05)];
    }

    /** `setDefaultCard` as written: `setCards` hands React a new array, so the initialising
        effect on `cards` runs afterwards and replaces every entry of `cardStates`, the pulse
        included. */
    method SetDefaultCardAsWritten(id: int)
      requires id in cardStates
      modifies this
      ensures cards == SetDefault(old(cards), id)
      ensures cardStates == InitialStates(cards)
      ensures showDetails == old(showDetails) && animatingCard == old(animatingCard)
      ensures newCard == old(newCard) && isAddingCard == old(isAddingCard) && alert == old(alert)
    {
      SetDefaultCard(id);
      cardStates := InitialStates(cards);
    }

    /** The pulse timer: the card's container scale goes back to 1. */
    method EndPulse(id: int)
      requires id in cardStates
      modifies this
      ensures cardStates == old(cardStates)[id := old(cardStates)[id].(containerScale := 1.0)]
      ensures cards == old(cards) && showDetails == old(showDetails)
      ensures animatingCard == old(animatingCard) && newCard == old(newCard)
      ensures isAddingCard == old(isAddingCard) && alert == old(alert)
    {
      cardStates := cardStates[id := cardStates[id].(containerScale := 1.0)];
    }

    /** `handleNewCardInput`. */
    method NewCardInput(field: FormField, value: string)
      modifies this
      ensures newCard == WithInput(old(newCard), field, value)
      ensures cards == old(cards) && cardStates == old(cardStates)
      ensures showDetails == old(showDetails) && animatingCard == old(animatingCard)
      ensures isAddingCard == old(isAddingCard) && alert == old(alert)
    {
      newCard := WithInput(newCard, field, value);
    }

    /** `handleInputFocus`. */
    method InputFocus(field: string)
      modifies this
      ensures newCard == old(newCard).(focus := field)
      ensures cards == old(cards) && cardStates == old(cardStates)
      ensures showDetails == old(showDetails) && animatingCard == old(animatingCard)
      ensures isAddingCard == old(isAddingCard) && alert == old(alert)
    {
      newCard := newCard.(focus := field);
    }

    /** The form's Add Card button: adding is disabled, so only an alert is shown. */
    method SubmitNewCard()
      modifies this
      ensures alert == "Adding new cards is currently disabled."
      ensures cards == old(cards) && cardStates == old(cardStates)
      ensures showDetails == old(showDetails) && animatingCard == old(animatingCard)
      ensures newCard == old(newCard) && isAddingCard == old(isAddingCard)
    {
      alert := "Adding new cards is currently disabled.";
    }
  }

  /** The discrepancy of `SetDefaultCardAsWritten`: a card that was flipped and raised before
      another card is made the default is flat and unflipped afterwards, and the pulse of the
      new default is gone, although `SetDefaultCard` keeps both. */
  lemma SetDefaultDiscardsStates(cards: seq<Card>, states: map<int, CardState>, id: int, other: int)
    requires id in states && other in states && other != id && other in Ids(cards)
    requires states[other].isFlipped && states[other].creditCardHovered
    ensures var asWritten := InitialStates(SetDefault(cards, id));
            var intended := states[id := states[id].(containerScale := 1.05)];
            && !asWritten[other].isFlipped && !asWritten[other].creditCardHovered
            && (id in asWritten ==> asWritten[id].containerScale == 1.0)
            && intended[other] == states[other] && intended[id].containerScale == 1.05
  {
    assert Ids(SetDefault(cards, id)) == Ids(cards) by {
      var r := SetDefault(cards, id);
      forall k | k in Ids(cards) ensures k in Ids(r) {
        var c :| c in cards && c.id == k;
        var i :| 0 <= i < |cards| && cards[i] == c;
        assert r[i].id == k;
      }
      forall k | k in Ids(r) ensures k in Ids(cards) {
        var c :| c in r && c.id == k;
        var i :| 0 <= i < |r| && r[i] == c;
        assert cards[i].id == k;
      }
    }
  }

  /** The quick stats of the two sample cards: 3,700.50 owed and 4,299.50 available of 8,000;
      the Visa card, at 50 per cent, is shown green. */
  lemma SampleFigures()
    ensures TotalBalance(SampleCards()) == 3700.5
    ensures TotalLimit(SampleCards()) == 8000.0
    ensures AvailableCredit(SampleCards()) == 4299.5
    ensures UtilizationColour(Utilization(2500.0, 5000.0)) == Green
  {
    var s := SampleCards();
    assert s[..1][..0] == [] && s[..|s| - 1] == s[..1];
  }
}
