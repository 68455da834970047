/** The `Message` record (src/main/java/simpleserver/Message.java): an immutable
    value of receiver, sender and body, each a nullable string, with a hand-written
    `equals` and `hashCode`. */
module Messages {
  import opened JavaLang

  datatype Message = Message(receiverId: Option<string>, senderId: Option<string>, message: Option<string>)

  /** `Message.equals(Object o)`: false for null and for objects of other classes,
      otherwise the three fields compared with `Objects.equals`. The `this == o`
      shortcut is covered, as an object has equal fields with itself. */
  predicate Equals(m: Message, o: Ref<Message>) {
    match o
    case NullRef => false
    case OtherClass => false
    case Instance(n) =>
      && ObjectsEquals(m.receiverId, n.receiverId)
      && ObjectsEquals(m.senderId, n.senderId)
      && ObjectsEquals(m.message, n.message)
  }

  /** Two messages are equal exactly when all three fields are, nulls included. */
  lemma {:induction false} EqualsIsValueEquality(m: Message, n: Message)
    ensures Equals(m, Instance(n)) <==> m == n
  {
    ObjectsEqualsIsEquality(m.receiverId, n.receiverId);
    ObjectsEqualsIsEquality(m.senderId, n.senderId);
    ObjectsEqualsIsEquality(m.message, n.message);
  }

  /** Equality is reflexive, symmetric, and never holds for null or another class. */
  lemma EqualsIsAnEquivalence(m: Message, n: Message)
    ensures Equals(m, Instance(m))
    ensures Equals(m, Instance(n)) <==> Equals(n, Instance(m))
    ensures !Equals(m, NullRef) && !Equals(m, OtherClass)
  {
    EqualsIsValueEquality(m, n);
    EqualsIsValueEquality(n, m);
    EqualsIsValueEquality(m, m);
  }

  const TwoTo32: int := 0x1_0000_0000

  /** Java `int` arithmetic: the 32-bit two's-complement wrap of an integer. */
  function WrapInt(x: int): (r: int)
    ensures -0x8000_0000 <= r < 0x8000_0000
    ensures (r - x) % TwoTo32 == 0
  {
    var m := x % TwoTo32;
    if m >= 0x8000_0000 then m - TwoTo32 else m
  }

  /** `String.hashCode`: `h = 31 * h + c` over the characters, in `int` arithmetic. */
  function StringHash(s: string): int
  {
    if s == [] then 0 else WrapInt(31 * StringHash(s[..|s| - 1]) + s[|s| - 1] as int)
  }

  /** `Objects.hashCode`-style contribution of a nullable string: 0 for null. */
  function FieldHash(s: Option<string>): int
  {
    match s
    case None => 0
    case Some(x) => StringHash(x)
  }

  /** `Objects.hash(receiverId, senderId, message)`: `Arrays.hashCode` of the three
      fields, starting from 1 and multiplying by 31 at each step. */
  function HashCode(m: Message): int
  {
    WrapInt(31 * WrapInt(31 * WrapInt(31 + FieldHash(m.receiverId)) + FieldHash(m.senderId)) + FieldHash(m.message))
  }

  /** Equal messages have equal hash codes. */
  lemma {:induction false} HashCodeAgreesWithEquals(m: Message, n: Message)
    requires Equals(m, Instance(n))
    ensures HashCode(m) == HashCode(n)
  {
    EqualsIsValueEquality(m, n);
  }
}
