/** Account identifiers and minted identifiers as text: printing, parsing, and why no two of them collide. */
module Identifiers {
  import opened Wrappers
  import opened Books
  import opened Posting

  // ---- Cutting a string at its first separator ----

  /** Position of the first c, or the length when there is none. */
  function Find(s: string, c: char): (at: nat)
    ensures at <= |s|
    ensures at < |s| ==> s[at] == c
    ensures forall i :: 0 <= i < at ==> s[i] != c
  {
    if s == "" || s[0] == c then 0 else 1 + Find(s[1..], c)
  }

  /** The text before the first c, and the text after it when there is one. */
  function Cut(s: string, c: char): (string, Option<string>) {
    var at := Find(s, c);
    (s[..at], if at < |s| then Some(s[at + 1..]) else None)
  }

  predicate Without(s: string, c: char) {
    forall i :: 0 <= i < |s| ==> s[i] != c
  }

  function Tail(c: char, rest: Option<string>): string {
    if rest.Some? then [c] + rest.value else ""
  }

  lemma {:induction false} CutJoined(head: string, c: char, rest: Option<string>)
    requires Without(head, c)
    ensures Cut(head + Tail(c, rest), c) == (head, rest)
  {
    hide Find;
    var s := head + Tail(c, rest);
    FindJoined(head, c, rest);
    assert s[..|head|] == head;
    assert rest.Some? ==> s[|head| + 1..] == rest.value;
  }

  lemma {:induction false} FindJoined(head: string, c: char, rest: Option<string>)
    requires Without(head, c)
    ensures Find(head + Tail(c, rest), c) == |head|
  {
    if head == "" {
      assert head + Tail(c, rest) == Tail(c, rest);
    } else {
      FindJoined(head[1..], c, rest);
      assert (head + Tail(c, rest))[1..] == head[1..] + Tail(c, rest);
    }
  }

  // ---- Account ids ----

  function CodeText(code: Code): string {
    match code
    case Cash => "cash"
    case Dep => "dep"
    case Esc => "esc"
    case Res => "res"
    case Lnr => "lnr"
    case Txr => "txr"
    case Dpl => "dpl"
    case Lnp => "lnp"
    case Iss => "iss"
  }

  function CodeOf(text: string): Option<Code> {
    if text == "cash" then Some(Cash)
    else if text == "dep" then Some(Dep)
    else if text == "esc" then Some(Esc)
    else if text == "res" then Some(Res)
    else if text == "lnr" then Some(Lnr)
    else if text == "txr" then Some(Txr)
    else if text == "dpl" then Some(Dpl)
    else if text == "lnp" then Some(Lnp)
    else if text == "iss" then Some(Iss)
    else None
  }

  function Text(id: AccountId): string {
    CodeText(id.code) + ":" + id.owner + Tail('@', id.bank) + Tail('#', id.ref)
  }

  function AccountIdText(id: AccountId): Result<string, Rule> {
    if ValidId(id) then Success(Text(id)) else Failure(InvalidAccount)
  }

  function ParseAccountId(text: string): Result<AccountId, Rule> {
    var (codeText, remainder) := Cut(text, ':');
    if remainder == None then Failure(InvalidAccount)
    else if CodeOf(codeText) == None then Failure(InvalidAccount)
    else
      var (ownerAndBank, ref) := Cut(remainder.value, '#');
      var (owner, bank) := Cut(ownerAndBank, '@');
      var id := AccountId(CodeOf(codeText).value, owner, bank, ref);
      var canonical := AccountIdText(id);
      if canonical.Failure? then Failure(canonical.error)
      else if canonical.value != text then Failure(InvalidAccount)
      else Success(id)
  }

  lemma {:induction false} CodeTextRoundTrip(code: Code)
    ensures CodeOf(CodeText(code)) == Some(code) && Without(CodeText(code), ':')
  {
  }

  /** Parsing undoes printing on exactly the valid ids. */
  lemma {:induction false} PrintedParses(id: AccountId)
    ensures ValidId(id) <==> ParseAccountId(Text(id)) == Success(id)
    ensures ValidId(id) <==> AccountIdText(id).Success?
  {
    if ValidId(id) {
      PlainParts(id);
      ValidParses(id);
    }
  }

  lemma {:induction false} PlainParts(id: AccountId)
    requires ValidId(id)
    ensures Without(id.owner + Tail('@', id.bank), '#') && Without(id.owner, '@')
  {
  }

  lemma {:induction false} ValidParses(id: AccountId)
    requires ValidId(id) && Without(id.owner + Tail('@', id.bank), '#') && Without(id.owner, '@')
    ensures ParseAccountId(Text(id)) == Success(id)
  {
    hide CodeText, CodeOf, Cut, ValidId, Tail;
    var code, ownerAndBank := CodeText(id.code), id.owner + Tail('@', id.bank);
    var remainder := ownerAndBank + Tail('#', id.ref);
    CodeTextRoundTrip(id.code);
    JoinedText(id, code, remainder);
    CutJoined(code, ':', Some(remainder));
    CutJoined(ownerAndBank, '#', id.ref);
    CutJoined(id.owner, '@', id.bank);
  }

  lemma {:induction false} JoinedText(id: AccountId, code: string, remainder: string)
    requires code == CodeText(id.code) && remainder == id.owner + Tail('@', id.bank) + Tail('#', id.ref)
    ensures Text(id) == code + Tail(':', Some(remainder))
  {
    hide CodeText;
  }

  /** Printing undoes parsing, and only valid ids are ever parsed. */
  lemma {:induction false} ParsedPrints(text: string)
    requires ParseAccountId(text).Success?
    ensures ValidId(ParseAccountId(text).value) && Text(ParseAccountId(text).value) == text
  {
  }

  /** Distinct valid ids have distinct ledger keys. */
  lemma {:induction false} TextInjective(a: AccountId, b: AccountId)
    requires ValidId(a) && ValidId(b) && Text(a) == Text(b)
    ensures a == b
  {
    PrintedParses(a);
    PrintedParses(b);
  }

  ghost predicate NamesOverdraft(text: string) {
    exists id :: OverdraftApproved(id) && Text(id) == text
  }

  /** The whitelist over texts: every text names a reserve account or the treasury's account at the central bank. */
  method ValidateAllowNegative(values: seq<string>) returns (r: Result<(), Rule>)
    ensures r.Success? <==> forall i :: 0 <= i < |values| ==> NamesOverdraft(values[i])
  {
    for k := 0 to |values|
      invariant forall i :: 0 <= i < k ==> NamesOverdraft(values[i])
    {
      var parsed := ParseAccountId(values[k]);
      if parsed.Success? {
        ParsedPrints(values[k]);
      }
      if parsed.Failure? || !(parsed.value.code.Res? ||
                              (parsed.value.code.Dep? && parsed.value.owner == TREASURY
                               && parsed.value.bank == Some(CENTRAL_BANK))) {
        if NamesOverdraft(values[k]) {
          var id :| OverdraftApproved(id) && Text(id) == values[k];
          PrintedParses(id);
        }
        return Failure(UnapprovedOverdraft);
      }
      assert OverdraftApproved(parsed.value) && Text(parsed.value) == values[k];
    }
    return Success(());
  }

  // ---- Minted ids ----

  const DIGITS := "0123456789"

  predicate IsDigit(c: char) {
    '0' <= c <= '9'
  }

  function DigitValue(c: char): int {
    c as int - '0' as int
  }

  function Decimal(n: nat): string {
    if n < 10 then [DIGITS[n]] else Decimal(n / 10) + [DIGITS[n % 10]]
  }

  function Zeros(n: nat): string {
    if n == 0 then "" else Zeros(n - 1) + "0"
  }

  /** Decimal text padded with zeros on the left to the given width. */
  function Padded(n: nat, width: nat): string {
    var digits := Decimal(n);
    if |digits| < width then Zeros(width - |digits|) + digits else digits
  }

  function ValueOf(s: string): int {
    if s == "" then 0 else 10 * ValueOf(s[..|s| - 1]) + DigitValue(s[|s| - 1])
  }

  lemma {:induction false} DigitText(d: nat)
    requires d < 10
    ensures IsDigit(DIGITS[d]) && DigitValue(DIGITS[d]) == d
  {
  }

  lemma {:induction false} DecimalReads(n: nat)
    ensures ValueOf(Decimal(n)) == n
    ensures forall i :: 0 <= i < |Decimal(n)| ==> IsDigit(Decimal(n)[i])
  {
    var s := Decimal(n);
    if n < 10 {
      DigitText(n);
      assert s[..|s| - 1] == "";
    } else {
      DecimalReads(n / 10);
      DigitText(n % 10);
      assert s[..|s| - 1] == Decimal(n / 10);
    }
  }

  lemma {:induction false} ZerosAreDigits(n: nat)
    ensures forall i :: 0 <= i < |Zeros(n)| ==> IsDigit(Zeros(n)[i])
  {
    if n != 0 {
      ZerosAreDigits(n - 1);
    }
  }

  lemma {:induction false} ZerosValue(n: nat)
    ensures ValueOf(Zeros(n)) == 0
  {
    if n != 0 {
      ZerosValue(n - 1);
      assert Zeros(n)[..|Zeros(n)| - 1] == Zeros(n - 1);
    }
  }

  lemma {:induction false} ZerosRead(n: nat, s: string)
    ensures ValueOf(Zeros(n) + s) == ValueOf(s)
  {
    ZerosValue(n);
    if s == "" {
      assert Zeros(n) + s == Zeros(n);
    } else {
      ZerosRead(n, s[..|s| - 1]);
      hide Zeros;
      var zeros := Zeros(n);
      assert (zeros + s)[..|zeros + s| - 1] == zeros + s[..|s| - 1];
    }
  }

  lemma {:induction false} PaddedReads(n: nat, width: nat)
    ensures ValueOf(Padded(n, width)) == n && Without(Padded(n, width), '_')
  {
    DecimalReads(n);
    if |Decimal(n)| < width {
      ZerosRead(width - |Decimal(n)|, Decimal(n));
      ZerosAreDigits(width - |Decimal(n)|);
    }
  }

  predicate MintPrefix(prefix: string) {
    prefix != "" && forall i :: 0 <= i < |prefix| ==> 'a' <= prefix[i] <= 'z' || IsDigit(prefix[i])
  }

  function Mint(prefix: string, tick: nat, ordinal: nat): string {
    prefix + "_" + Padded(tick, 8) + "_" + Padded(ordinal, 4)
  }

  /** Minted ids are distinct whenever prefix, tick or ordinal differ, however wide the numbers grow. */
  lemma {:induction false} MintInjective(p: string, t: nat, o: nat, p': string, t': nat, o': nat)
    requires MintPrefix(p) && MintPrefix(p') && Mint(p, t, o) == Mint(p', t', o')
    ensures p == p' && t == t' && o == o'
  {
    MintParts(p, t, o);
    MintParts(p', t', o');
    PaddedReads(t, 8);
    PaddedReads(t', 8);
    PaddedReads(o, 4);
    PaddedReads(o', 4);
  }

  lemma {:induction false} MintParts(p: string, t: nat, o: nat)
    requires MintPrefix(p)
    ensures Cut(Mint(p, t, o), '_') == (p, Some(Padded(t, 8) + "_" + Padded(o, 4)))
    ensures Cut(Padded(t, 8) + "_" + Padded(o, 4), '_') == (Padded(t, 8), Some(Padded(o, 4)))
  {
    PaddedReads(t, 8);
    TwoCuts(p, Padded(t, 8), Padded(o, 4));
  }

  lemma {:induction false} TwoCuts(a: string, b: string, c: string)
    requires Without(a, '_') && Without(b, '_')
    ensures Cut(a + "_" + b + "_" + c, '_') == (a, Some(b + "_" + c))
    ensures Cut(b + "_" + c, '_') == (b, Some(c))
  {
    assert a + "_" + b + "_" + c == a + Tail('_', Some(b + "_" + c));
    CutJoined(a, '_', Some(b + "_" + c));
    assert b + "_" + c == b + Tail('_', Some(c));
    CutJoined(b, '_', Some(c));
  }

  /** Minted ids can serve as account references. */
  lemma {:induction false} MintIsPlain(prefix: string, tick: nat, ordinal: nat)
    requires MintPrefix(prefix)
    ensures Plain(Mint(prefix, tick, ordinal))
  {
    PaddedIsDigits(tick, 8);
    PaddedIsDigits(ordinal, 4);
  }

  lemma {:induction false} PaddedIsDigits(n: nat, width: nat)
    ensures forall i :: 0 <= i < |Padded(n, width)| ==> IsDigit(Padded(n, width)[i])
  {
    DecimalReads(n);
    if |Decimal(n)| < width {
      ZerosRead(width - |Decimal(n)|, Decimal(n));
      ZerosAreDigits(width - |Decimal(n)|);
    }
  }
}
