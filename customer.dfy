/** Customer: identity and contact data, with the e-mail format checked once
    at construction and a mutable address (src/domain/entities/Customer.ts). */
module Customers {
  import opened DomainErrors
  import opened Text

  /** A character of the class `[^\s@]`. */
  predicate IsPlain(c: char) {
    c != '@' && !IsWhitespace(c)
  }

  /** A string made only of `[^\s@]` characters (possibly empty). */
  predicate AllPlain(s: string) {
    forall k :: 0 <= k < |s| ==> IsPlain(s[k])
  }

  /** The language of `/^[^\s@]+@[^\s@]+\.[^\s@]+$/`: the string splits as
      local `@` domain `.` tld, each of the three parts non-empty and free of
      whitespace and `@`. The domain may itself contain dots. */
  ghost predicate EmailShape(s: string) {
    exists i, j ::
      && 0 < i && i + 1 < j && j + 1 < |s|
      && s[i] == '@' && s[j] == '.'
      && AllPlain(s[..i]) && AllPlain(s[i + 1..j]) && AllPlain(s[j + 1..])
  }

  /** Position of the first `@` in `s`, or `|s|` when there is none. */
  function IndexOfAt(s: string): (i: nat)
    ensures i <= |s|
    ensures i < |s| ==> s[i] == '@'
    ensures forall k :: 0 <= k < i ==> s[k] != '@'
  {
    if s == [] || s[0] == '@' then 0 else 1 + IndexOfAt(s[1..])
  }

  /** The e-mail test of `validateEmail`, computed by splitting at the first
      `@`: a non-empty local part before it, and after it a part of `[^\s@]`
      characters with a dot that is neither its first nor its last character. */
  predicate IsValidEmail(email: string) {
    var i := IndexOfAt(email);
    && 0 < i < |email|
    && AllPlain(email[..i])
    && var domain := email[i + 1..];
       && AllPlain(domain)
       && 3 <= |domain|
       && '.' in domain[1..|domain| - 1]
  }

  /** The split-at-the-first-`@` test accepts exactly the strings the regular
      expression matches. */
  lemma IsValidEmailIffShape(s: string)
    ensures IsValidEmail(s) <==> EmailShape(s)
  {
    if IsValidEmail(s) {
      ValidEmailHasShape(s);
    }
    if EmailShape(s) {
      ShapeIsValidEmail(s);
    }
  }

  lemma ValidEmailHasShape(s: string)
    requires IsValidEmail(s)
    ensures EmailShape(s)
  {
    var i := IndexOfAt(s);
    var d := s[i + 1..];
    var m :| 0 <= m < |d| - 2 && d[1..|d| - 1][m] == '.';
    var j := i + 2 + m;
    assert s[i + 1..j] == d[..m + 1];
    assert s[j + 1..] == d[m + 2..];
    assert AllPlain(s[i + 1..j]);
    assert AllPlain(s[j + 1..]);
  }

  lemma ShapeIsValidEmail(s: string)
    requires EmailShape(s)
    ensures IsValidEmail(s)
  {
    var i, j :|
      && 0 < i && i + 1 < j && j + 1 < |s|
      && s[i] == '@' && s[j] == '.'
      && AllPlain(s[..i]) && AllPlain(s[i + 1..j]) && AllPlain(s[j + 1..]);
    FirstAtAfterPlainPrefix(s, i);
    DomainAroundDot(s, i, j);
    ValidEmailFromParts(s, i, j - i - 1);
  }

  /** The part after the `@` at `i`, with its dot at `j`, is `[^\s@]` throughout. */
  lemma DomainAroundDot(s: string, i: nat, j: nat)
    requires i < j < |s| && s[j] == '.'
    requires AllPlain(s[i + 1..j]) && AllPlain(s[j + 1..])
    ensures AllPlain(s[i + 1..])
  {
    assert s[i + 1..] == s[i + 1..j] + ['.'] + s[j + 1..];
    AllPlainConcat(s[i + 1..j], ['.']);
    AllPlainConcat(s[i + 1..j] + ['.'], s[j + 1..]);
  }

  lemma ValidEmailFromParts(s: string, i: nat, m: nat)
    requires 0 < i < |s| && IndexOfAt(s) == i && AllPlain(s[..i])
    requires AllPlain(s[i + 1..])
    requires 1 <= m && i + m + 2 < |s| && s[i + 1 + m] == '.'
    ensures IsValidEmail(s)
  {
    var d := s[i + 1..];
    assert d[1..|d| - 1][m - 1] == '.';
  }

  /** An `@` preceded only by `[^\s@]` characters is the first one. */
  lemma FirstAtAfterPlainPrefix(s: string, i: nat)
    requires i < |s| && s[i] == '@' && AllPlain(s[..i])
    ensures IndexOfAt(s) == i
  {
  }

  lemma AllPlainConcat(a: string, b: string)
    requires AllPlain(a) && AllPlain(b)
    ensures AllPlain(a + b)
  {
    forall k | 0 <= k < |a + b| ensures IsPlain((a + b)[k]) {
      if k >= |a| {
        assert (a + b)[k] == b[k - |a|];
      }
    }
  }

  /** A domain may itself contain dots. */
  lemma DottedDomainAccepted()
    ensures EmailShape("ana@mail.shop.com")
  {
    var s := "ana@mail.shop.com";
    assert s[..3] == "ana" && s[4..13] == "mail.shop" && s[14..] == "com";
    assert s[3] == '@' && s[13] == '.';
  }

  /** An address with no dot after its first `@` is rejected (so is one with
      no `@` at all). */
  lemma MissingDotRejected(s: string)
    requires '.' !in s[IndexOfAt(s)..]
    ensures !EmailShape(s)
  {
  }

  /** An address with a whitespace character anywhere in it is rejected. */
  lemma SpaceRejected(s: string, k: nat)
    requires k < |s| && IsWhitespace(s[k])
    ensures !EmailShape(s)
  {
  }

  class Customer {
    const id: string
    var name: string
    var email: string
    var address: string

    /** The e-mail is well-formed; nothing else about a customer is checked. */
    ghost predicate Valid()
      reads this
    {
      EmailShape(email)
    }

    /** The private half of the source constructor: storing the fields once
        the e-mail has passed the check. */
    constructor (id: string, name: string, email: string, address: string)
      requires EmailShape(email)
      ensures Valid()
      ensures this.id == id && this.name == name && this.email == email && this.address == address
    {
      this.id := id;
      this.name := name;
      this.email := email;
      this.address := address;
    }

    /** `new Customer(id, name, email, address)`: fails unless the e-mail
        matches the regular expression. The id, name and address are stored
        as given, without any check (an empty address is accepted). */
    static method Create(id: string, name: string, email: string, address: string)
      returns (r: Result<Customer>)
      ensures r.Ok? <==> EmailShape(email)
      ensures r.Err? ==> r.error == InvalidEmail
      ensures r.Ok? ==> fresh(r.value) && r.value.Valid()
      ensures r.Ok? ==>
                r.value.id == id && r.value.name == name && r.value.email == email && r.value.address == address
    {
      IsValidEmailIffShape(email);
      if !IsValidEmail(email) {
        return Err(InvalidEmail);
      }
      var c := new Customer(id, name, email, address);
      return Ok(c);
    }

    /** `updateAddress(newAddress)`: rejects an empty or whitespace-only
        address, leaving the old one; otherwise stores the argument exactly
        as given, untrimmed. Id, name and e-mail never change. */
    method UpdateAddress(newAddress: string) returns (r: Outcome)
      requires Valid()
      modifies this`address
      ensures Valid()
      ensures r.Pass? <==> !AllWhitespace(newAddress)
      ensures r.Fail? ==> r.error == EmptyAddress
      ensures address == if r.Pass? then newAddress else old(address)
      ensures name == old(name) && email == old(email)
    {
      BlankIffAllWhitespace(newAddress);
      if IsBlank(newAddress) {
        return Fail(EmptyAddress);
      }
      address := newAddress;
      return Pass;
    }
  }
}
