/** Deriving a nickname for a Google account (`accounts/services.py`). */
module Nicknames {
  import opened Text

  const MIN_LENGTH := 2

  const MAX_LENGTH := 20

  /** Leaves room for `_NNNN`. */
  const BASE_LENGTH := 15

  /** What stands before the first `@`; the whole address when there is none. */
  function LocalPart(email: string): string {
    if email == "" || email[0] == '@' then "" else [email[0]] + LocalPart(email[1..])
  }

  function Cut(s: string): string { if |s| <= BASE_LENGTH then s else s[..BASE_LENGTH] }

  function Cleaned(candidate: string): string { Cut(Collapse(Strip(candidate))) }

  function Base(name: string, email: string): string {
    if |Cleaned(name)| >= MIN_LENGTH then Cleaned(name)
    else if |Cleaned(LocalPart(email))| >= MIN_LENGTH then Cleaned(LocalPart(email))
    else "user"
  }

  method DeriveBase(name: string, email: string) returns (base: string)
    ensures base == Base(name, email)
  {
    hide Cleaned;
    var candidates := [name, LocalPart(email), "user"];
    var i := 0;
    while i < |candidates|
      invariant 0 <= i <= |candidates|
      invariant i > 0 ==> |Cleaned(name)| < MIN_LENGTH
      invariant i > 1 ==> |Cleaned(LocalPart(email))| < MIN_LENGTH
    {
      var cleaned := Cleaned(candidates[i]);
      if |cleaned| >= MIN_LENGTH {
        if i == 2 { UserIsClean(); }
        return cleaned;
      }
      i := i + 1;
    }
    return "user";
  }

  lemma UserIsClean()
    ensures Cleaned("user") == "user"
  {
    SolidIsClean("user");
  }

  /** The source a base was taken from. */
  function SourceOf(name: string, email: string): string {
    if |Cleaned(name)| >= MIN_LENGTH then name
    else if |Cleaned(LocalPart(email))| >= MIN_LENGTH then LocalPart(email)
    else "user"
  }

  /**
   Whatever Google sent: between 2 and 15 characters, no white space in front, none but single
   spaces inside, and it is the words of its source, one space apart, cut at 15 characters.
   */
  lemma BaseIsPresentable(name: string, email: string)
    ensures MIN_LENGTH <= |Base(name, email)| <= BASE_LENGTH
    ensures Tidy(Base(name, email))
    ensures Base(name, email) <= Joined(Words(SourceOf(name, email)))
    ensures |Base(name, email)| < BASE_LENGTH ==> Base(name, email) == Joined(Words(SourceOf(name, email)))
  {
    var source := SourceOf(name, email);
    UserIsClean();
    CleaningKeepsTheWords(source);
    CleaningIsTidy(source);
    if |Collapse(Strip(source))| > BASE_LENGTH { TidyPrefix(Collapse(Strip(source)), BASE_LENGTH); }
  }

  /** The address up to its first `@`. */
  lemma {:induction false} LocalPartIs(email: string)
    ensures LocalPart(email) <= email && '@' !in LocalPart(email)
    ensures LocalPart(email) == email || email[|LocalPart(email)|] == '@'
  {
    if email != "" && email[0] != '@' { LocalPartIs(email[1..]); }
  }

  /** The words of a text, one space apart, cut at 15 characters. */
  function Short(s: string): string {
    var words := Joined(Words(s));
    if |words| <= 15 then words else words[..15]
  }

  /** The name if two characters of it are left, else what is before the `@` of the address, else "user". */
  lemma BaseIsTheFirstLongEnough(name: string, email: string)
    ensures Base(name, email) == if |Short(name)| >= 2 then Short(name)
                                 else if |Short(LocalPart(email))| >= 2 then Short(LocalPart(email)) else "user"
  {
    CleaningKeepsTheWords(name);
    CleaningKeepsTheWords(LocalPart(email));
    hide Collapse, Strip, Words, Joined, LocalPart;
  }

  // --- what is tried ---

  function Digit(n: nat): char
    requires n < 10
  {
    ('0' as int + n) as char
  }

  /** Zero-padded to four digits. */
  function FourDigits(n: nat): string
    requires n < 10000
  {
    [Digit(n / 10 / 10 / 10), Digit(n / 10 / 10 % 10), Digit(n / 10 % 10), Digit(n % 10)]
  }

  /** What the random sources gave: five numbers below 10000 and eight hexadecimal digits. */
  datatype Luck = Luck(draws: seq<nat>, hex: string)

  predicate Drawn(luck: Luck) {
    |luck.draws| == 5 && |luck.hex| == 8 && forall i :: 0 <= i < 5 ==> luck.draws[i] < 10000
  }

  function Candidates(base: string, luck: Luck): seq<string>
    requires Drawn(luck)
  {
    [base] + seq(5, i requires 0 <= i < 5 => base + "_" + FourDigits(luck.draws[i])) + ["user_" + luck.hex]
  }

  /** Every candidate is a nickname the column takes. */
  lemma CandidatesFitTheColumn(name: string, email: string, luck: Luck)
    requires Drawn(luck)
    ensures forall nickname :: nickname in Candidates(Base(name, email), luck) ==> MIN_LENGTH <= |nickname| <= MAX_LENGTH
  {
    BaseIsPresentable(name, email);
    var candidates := Candidates(Base(name, email), luck);
    forall nickname | nickname in candidates
      ensures MIN_LENGTH <= |nickname| <= MAX_LENGTH
    {
      var i :| 0 <= i < |candidates| && candidates[i] == nickname;
    }
  }

  /** Four decimal digits, and the number they say is the one drawn. */
  lemma FourDigitsSay(n: nat)
    requires n < 10000
    ensures var d := FourDigits(n);
            && |d| == 4 && (forall i :: 0 <= i < 4 ==> '0' <= d[i] <= '9')
            && n == 1000 * (d[0] as int - 48) + 100 * (d[1] as int - 48) + 10 * (d[2] as int - 48) + (d[3] as int - 48)
  {}

  /** The base, five times the base with four drawn digits behind an underscore, and one with eight drawn digits. */
  lemma CandidatesAre(base: string, luck: Luck)
    requires Drawn(luck)
    ensures var tried := Candidates(base, luck);
            && |tried| == 7 && tried[0] == base && tried[6] == "user_" + luck.hex
            && forall i :: 1 <= i < 6 ==> tried[i] == base + "_" + FourDigits(luck.draws[i - 1])
  {}

  lemma DigitsDiffer(m: nat, n: nat)
    requires m < 10000 && n < 10000 && FourDigits(m) == FourDigits(n)
    ensures m == n
  {
    assert FourDigits(m)[0] == FourDigits(n)[0] && FourDigits(m)[1] == FourDigits(n)[1];
    assert FourDigits(m)[2] == FourDigits(n)[2] && FourDigits(m)[3] == FourDigits(n)[3];
  }

  /** Different draws are different candidates, and none of them is the base again. */
  lemma RetriesAreNew(base: string, luck: Luck, i: nat, j: nat)
    requires Drawn(luck) && i < j <= 5 && (i > 0 ==> luck.draws[i - 1] != luck.draws[j - 1])
    ensures Candidates(base, luck)[i] != Candidates(base, luck)[j]
  {
    var suffix := "_" + FourDigits(luck.draws[j - 1]);
    assert Candidates(base, luck)[j] == base + suffix;
    if i > 0 && Candidates(base, luck)[i] == Candidates(base, luck)[j] {
      var other := "_" + FourDigits(luck.draws[i - 1]);
      assert Candidates(base, luck)[i] == base + other;
      assert (base + other)[|base| + 1..] == FourDigits(luck.draws[i - 1]);
      assert (base + suffix)[|base| + 1..] == FourDigits(luck.draws[j - 1]);
      DigitsDiffer(luck.draws[i - 1], luck.draws[j - 1]);
    }
  }
}
