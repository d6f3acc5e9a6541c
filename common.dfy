/** Values shared by every part of the model: optional values, identifiers,
    HTTP replies and the server-side session record. */
module Common {

  datatype Option<T> = None | Some(value: T)

  /** Document identifiers (MongoDB ObjectIds) are compared as their hex strings,
      which is how every handler compares them (`toString()`, `includes`, `indexOf`). */
  type UserId = string
  type PostId = string

  /** A handler's JSON reply: a success status with a payload, or an error
      status with the `message` string the client sees. */
  datatype Reply<T> = Ok(status: int, body: T) | Fail(status: int, message: string)

  const OK := 200
  const CREATED := 201
  const BAD_REQUEST := 400
  const UNAUTHORIZED := 401
  const FORBIDDEN := 403
  const NOT_FOUND := 404
  const SERVER_ERROR := 500

  /** `req.session`: created by the session middleware, holds the logged-in user's id. */
  class Session {
    var userId: Option<UserId>

    constructor ()
      ensures userId == None
    {
      userId := None;
    }
  }

  /** JavaScript truthiness of an optional string field of a request body:
      `undefined` and `''` are falsy. */
  predicate Truthy(s: Option<string>)
  {
    s.Some? && s.value != ""
  }

  /** `s.length` in JavaScript, which is also what Mongoose's `minlength` and
      `maxlength` measure: UTF-16 code units, two for a character beyond U+FFFF. */
  function Utf16Length(s: string): (n: nat)
    ensures |s| <= n <= 2 * |s|
  {
    if s == [] then 0 else (if s[0] as int >= 0x1_0000 then 2 else 1) + Utf16Length(s[1..])
  }

  /** The length of a concatenation is the sum of the lengths. */
  lemma {:induction false} Utf16LengthAppend(a: string, b: string)
    ensures Utf16Length(a + b) == Utf16Length(a) + Utf16Length(b)
  {
    if a == [] {
      assert a + b == b;
    } else {
      assert (a + b)[1..] == a[1..] + b;
      Utf16LengthAppend(a[1..], b);
    }
  }

  /** Below U+10000 every character is one code unit, so the two lengths agree. */
  lemma {:induction false} Utf16LengthBmp(s: string)
    requires forall i | 0 <= i < |s| :: s[i] as int < 0x1_0000
    ensures Utf16Length(s) == |s|
  {
    if s != [] {
      Utf16LengthBmp(s[1..]);
    }
  }

  /** A character beyond U+FFFF, such as an emoji, counts twice. */
  lemma AstralCountsTwice(c: char)
    requires c as int >= 0x1_0000
    ensures Utf16Length([c]) == 2
  {
  }

  /** The user id a session carries, when `req.session && req.session.userId` is truthy. */
  function SessionUser(s: Session?): (u: Option<UserId>)
    reads s
    ensures u.Some? ==> s != null && s.userId == u && u.value != ""
    ensures u.None? ==> s == null || !Truthy(s.userId)
  {
    if s != null && Truthy(s.userId) then s.userId else None
  }
}

/** Sequence operations shared by the handlers: `array.filter(e => e !== x)`. */
module Lists {

  /** `s.filter(e => e !== x)`: every occurrence of `x` removed, the rest kept in order. */
  function Without<T(==)>(s: seq<T>, x: T): (r: seq<T>)
    ensures multiset(r) == multiset(s)[x := 0]
    ensures |r| <= |s|
    ensures x in s ==> |r| < |s|
  {
    if s == [] then []
    else
      var rest := Without(s[1..], x);
      assert s == [s[0]] + s[1..];
      (if s[0] == x then [] else [s[0]]) + rest
  }

  lemma WithoutMembers<T>(s: seq<T>, x: T)
    ensures x !in Without(s, x)
    ensures forall y | y != x :: y in Without(s, x) <==> y in s
  {
    var r := Without(s, x);
    assert multiset(r)[x] == 0;
    forall y | y != x ensures y in r <==> y in s {
      assert multiset(r)[y] == multiset(s)[y];
    }
  }

  /** Removing an element that is absent changes nothing. */
  lemma {:induction false} WithoutAbsent<T>(s: seq<T>, x: T)
    requires x !in s
    ensures Without(s, x) == s
  {
    if s != [] {
      assert x !in s[1..];
      WithoutAbsent(s[1..], x);
    }
  }

  /** Removing the same element twice is removing it once. */
  lemma WithoutIdempotent<T>(s: seq<T>, x: T)
    ensures Without(Without(s, x), x) == Without(s, x)
  {
    WithoutMembers(s, x);
    WithoutAbsent(Without(s, x), x);
  }

  /** Removing from `s + [x]` the `x` just appended gives `s` back when `x` was absent. */
  lemma {:induction false} WithoutAppended<T>(s: seq<T>, x: T)
    requires x !in s
    ensures Without(s + [x], x) == s
  {
    if s == [] {
      assert [x][1..] == [];
    } else {
      assert (s + [x])[1..] == s[1..] + [x];
      assert x !in s[1..];
      WithoutAppended(s[1..], x);
      assert s == [s[0]] + s[1..];
    }
  }
}
