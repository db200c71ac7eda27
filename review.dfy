/**
 * The customer review step of the wizard: the list of target customers
 * with their generated SMS, the edit / save / cancel protocol for one
 * message at a time, deletion, and the derived values the step displays
 * (tier badge class, avatar initials, recipient counts).
 */
module CustomerReview {
  import opened Lists

  datatype Option<T> = None | Some(value: T)

  /** One customer of the target audience. */
  datatype Customer = Customer(
    id: string,
    name: string,
    phone: string,
    vipTier: string,
    lastPurchase: string,
    generatedSMS: string,
    avatar: Option<string>)

  /** The generated messages of the seeded customers. */
  const SarahMessage: string :=
    "Hi Sarah! \U{00F0}\U{0178}\U{0152}\U{0178} Exclusive 30% off luxury handbags just for our Platinum members. Your favorite brands await! Shop now: mall.com/vip"

  const MichaelMessage: string :=
    "Michael, your Gold status unlocks 25% off tech accessories! New smartwatch collections just arrived. Limited time: mall.com/tech"

  const EmmaMessage: string :=
    "Emma! \U{00E2}\U{0153}\U{00A8} Platinum exclusive: 35% off fine jewelry. New arrivals from your favorite designers. Don't miss out: mall.com/jewelry"

  const DavidMessage: string :=
    "David, Silver member special! 20% off casual wear + free styling session. Upgrade your wardrobe today: mall.com/style"

  /** The seeded target audience the step starts with. */
  function MockCustomers(): seq<Customer>
  {
    [ Customer("1", "Sarah Johnson", "+1 (555) 123-4567", "Platinum", "Designer handbag - $450",
        SarahMessage,
        None),
      Customer("2", "Michael Chen", "+1 (555) 234-5678", "Gold", "Smart watch - $299",
        MichaelMessage,
        None),
      Customer("3", "Emma Rodriguez", "+1 (555) 345-6789", "Platinum", "Jewelry set - $680",
        EmmaMessage,
        None),
      Customer("4", "David Kim", "+1 (555) 456-7890", "Silver", "Casual wear - $120",
        DavidMessage,
        None) ]
  }

  /** No two customers share an id. */
  predicate UniqueIds(customers: seq<Customer>)
  {
    forall i, j :: 0 <= i < j < |customers| ==> customers[i].id != customers[j].id
  }

  // ---------------------------------------------------------------------
  // List updates
  // ---------------------------------------------------------------------

  /**
   * The `map` of the save handler: every customer with the id gets the new
   * message, every other customer and every other field stays as it was,
   * and the list keeps its length and order. The message is not checked.
   */
  function WithMessage(customers: seq<Customer>, id: string, message: string): (r: seq<Customer>)
    ensures |r| == |customers|
    ensures forall i :: 0 <= i < |r| ==>
              r[i] == if customers[i].id == id then customers[i].(generatedSMS := message) else customers[i]
  {
    if customers == [] then []
    else
      var c := customers[0];
      [if c.id == id then c.(generatedSMS := message) else c] + WithMessage(customers[1..], id, message)
  }

  /** How many customers carry the id. */
  function CountId(customers: seq<Customer>, id: string): (n: nat)
    ensures n <= |customers|
    ensures n == 0 <==> forall c :: c in customers ==> c.id != id
  {
    if customers == [] then 0
    else (if customers[0].id == id then 1 else 0) + CountId(customers[1..], id)
  }

  /**
   * The `filter` of the delete handler: exactly the customers with the id
   * are gone, the others remain in their original order.
   */
  function WithoutId(customers: seq<Customer>, id: string): (r: seq<Customer>)
    ensures forall c :: c in r <==> c in customers && c.id != id
    ensures |r| == |customers| - CountId(customers, id)
    ensures IsSubsequence(r, customers)
  {
    if customers == [] then []
    else if customers[0].id == id then WithoutId(customers[1..], id)
    else [customers[0]] + WithoutId(customers[1..], id)
  }

  /** Deleting an id no customer has leaves the list unchanged. */
  lemma {:induction false} DeleteAbsentId(customers: seq<Customer>, id: string)
    requires forall c :: c in customers ==> c.id != id
    ensures WithoutId(customers, id) == customers
  {
    if customers != [] {
      DeleteAbsentId(customers[1..], id);
    }
  }

  /** Deleting the same id twice is the same as deleting it once. */
  lemma DeleteIdempotent(customers: seq<Customer>, id: string)
    ensures WithoutId(WithoutId(customers, id), id) == WithoutId(customers, id)
  {
    DeleteAbsentId(WithoutId(customers, id), id);
  }

  /** The tail of a list with unique ids has unique ids, none equal to the head's. */
  lemma UniqueIdsTail(customers: seq<Customer>)
    requires customers != [] && UniqueIds(customers)
    ensures UniqueIds(customers[1..])
    ensures forall c :: c in customers[1..] ==> c.id != customers[0].id
  {
  }

  /** Putting a customer with a fresh id in front keeps ids unique. */
  lemma ConsUniqueIds(c: Customer, rest: seq<Customer>)
    requires UniqueIds(rest)
    requires forall d :: d in rest ==> d.id != c.id
    ensures UniqueIds([c] + rest)
  {
    var r := [c] + rest;
    forall i, j | 0 <= i < j < |r| ensures r[i].id != r[j].id {
      assert r[j] == rest[j - 1];
      if i == 0 {
        assert rest[j - 1] in rest;
      } else {
        assert r[i] == rest[i - 1];
      }
    }
  }

  /** Deleting keeps a list with unique ids unique. */
  lemma {:induction false} DeleteKeepsUniqueIds(customers: seq<Customer>, id: string)
    requires UniqueIds(customers)
    ensures UniqueIds(WithoutId(customers, id))
  {
    if customers != [] {
      var tail := customers[1..];
      UniqueIdsTail(customers);
      DeleteKeepsUniqueIds(tail, id);
      if customers[0].id != id {
        ConsUniqueIds(customers[0], WithoutId(tail, id));
      }
    }
  }

  /** Saving under an id no customer has leaves the list unchanged. */
  lemma SaveAbsentId(customers: seq<Customer>, id: string, message: string)
    requires forall c :: c in customers ==> c.id != id
    ensures WithMessage(customers, id, message) == customers
  {
  }

  /** Saving a message never touches an id, so ids stay unique. */
  lemma SaveKeepsUniqueIds(customers: seq<Customer>, id: string, message: string)
    requires UniqueIds(customers)
    ensures UniqueIds(WithMessage(customers, id, message))
  {
  }

  /**
   * Opening the editor on a listed customer and saving without typing
   * writes back the message it already had: with unique ids the list is
   * unchanged.
   */
  lemma EditThenSaveUnchanged(customers: seq<Customer>, c: Customer)
    requires UniqueIds(customers) && c in customers
    ensures WithMessage(customers, c.id, c.generatedSMS) == customers
  {
  }

  // ---------------------------------------------------------------------
  // Derived values
  // ---------------------------------------------------------------------

  /** The number of customers whose tier is exactly "Platinum". */
  function PlatinumCount(customers: seq<Customer>): (n: nat)
    ensures n <= |customers|
    ensures n == |customers| <==> forall c :: c in customers ==> c.vipTier == "Platinum"
    ensures n == 0 <==> forall c :: c in customers ==> c.vipTier != "Platinum"
  {
    if customers == [] then 0
    else (if customers[0].vipTier == "Platinum" then 1 else 0) + PlatinumCount(customers[1..])
  }

  /** Saving a message does not change any tier, so the Platinum count stays. */
  lemma {:induction false} SaveKeepsPlatinumCount(customers: seq<Customer>, id: string, message: string)
    ensures PlatinumCount(WithMessage(customers, id, message)) == PlatinumCount(customers)
  {
    if customers != [] {
      var r := WithMessage(customers, id, message);
      assert r[1..] == WithMessage(customers[1..], id, message);
      SaveKeepsPlatinumCount(customers[1..], id, message);
    }
  }

  /**
   * Deleting removes as many Platinum members as there were Platinum
   * customers with that id, and never more customers than there were.
   */
  lemma {:induction false} DeletePlatinumCount(customers: seq<Customer>, id: string)
    ensures PlatinumCount(WithoutId(customers, id)) <= PlatinumCount(customers)
    ensures PlatinumCount(customers) - PlatinumCount(WithoutId(customers, id)) <= CountId(customers, id)
  {
    if customers != [] {
      DeletePlatinumCount(customers[1..], id);
      if customers[0].id != id {
        assert ([customers[0]] + WithoutId(customers[1..], id))[1..] == WithoutId(customers[1..], id);
      }
    }
  }

  /** The badge class for a tier: three distinct classes and a default. */
  function TierColor(tier: string): (r: string)
    ensures r == "bg-purple-100 text-purple-800" <==> tier == "Platinum"
    ensures r == "bg-yellow-100 text-yellow-800" <==> tier == "Gold"
    ensures r == "bg-gray-100 text-gray-800" <==> tier == "Silver"
    ensures r == "bg-blue-100 text-blue-800" <==> tier !in {"Platinum", "Gold", "Silver"}
  {
    match tier
    case "Platinum" => "bg-purple-100 text-purple-800"
    case "Gold" => "bg-yellow-100 text-yellow-800"
    case "Silver" => "bg-gray-100 text-gray-800"
    case _ => "bg-blue-100 text-blue-800"
  }

  /** `parts.join(sep)`. */
  function Join(parts: seq<string>, sep: string): string
  {
    if parts == [] then ""
    else if |parts| == 1 then parts[0]
    else parts[0] + sep + Join(parts[1..], sep)
  }

  /**
   * `name.split(" ")`: the parts between single spaces, empty parts
   * included. No part holds a space, and joining the parts with a space
   * gives the name back, which fixes the parts uniquely.
   */
  function SplitOnSpace(s: string): (parts: seq<string>)
    ensures |parts| >= 1
    ensures Join(parts, " ") == s
    ensures forall p :: p in parts ==> ' ' !in p
  {
    if s == [] then [""]
    else
      var rest := SplitOnSpace(s[1..]);
      assert s == [s[0]] + s[1..];
      assert rest[0] in rest;
      if s[0] == ' ' then
        assert ([""] + rest)[1..] == rest;
        [""] + rest
      else
        assert ([[s[0]] + rest[0]] + rest[1..])[1..] == rest[1..];
        [[s[0]] + rest[0]] + rest[1..]
  }

  /**
   * `.map((n) => n[0]).join("")`: the first character of every part; an
   * empty part yields `undefined`, which `join` writes as nothing.
   */
  function FirstLetters(parts: seq<string>): (r: string)
    ensures |r| <= |parts|
  {
    if parts == [] then ""
    else (if parts[0] == "" then "" else [parts[0][0]]) + FirstLetters(parts[1..])
  }

  /** The avatar fallback text of a customer. */
  function Initials(name: string): string
  {
    FirstLetters(SplitOnSpace(name))
  }

  /**
   * An independent reading of the initials: the characters of the name
   * that are not a space and stand at the start or right after a space.
   * `atStart` tells whether position 0 of `s` follows a space (or is the
   * start of the name).
   */
  function WordStarts(s: string, atStart: bool): (r: string)
    ensures |r| <= |s|
    ensures forall ch :: ch in r ==> ch in s && ch != ' '
  {
    if s == [] then ""
    else if s[0] == ' ' then WordStarts(s[1..], true)
    else (if atStart then [s[0]] else "") + WordStarts(s[1..], false)
  }

  lemma {:induction false} FirstLettersAppend(a: seq<string>, b: seq<string>)
    ensures FirstLetters(a + b) == FirstLetters(a) + FirstLetters(b)
  {
    if a != [] {
      var head := if a[0] == "" then "" else [a[0][0]];
      assert (a + b)[0] == a[0];
      assert (a + b)[1..] == a[1..] + b;
      FirstLettersAppend(a[1..], b);
      calc {
        FirstLetters(a + b);
        head + FirstLetters(a[1..] + b);
        head + (FirstLetters(a[1..]) + FirstLetters(b));
        (head + FirstLetters(a[1..])) + FirstLetters(b);
        FirstLetters(a) + FirstLetters(b);
      }
    } else {
      assert a + b == b;
    }
  }

  /**
   * The parts after the first contribute the word starts that follow a
   * space, and all parts together contribute every word start.
   */
  lemma {:induction false} FirstLettersAreWordStarts(s: string)
    ensures FirstLetters(SplitOnSpace(s)[1..]) == WordStarts(s, false)
    ensures FirstLetters(SplitOnSpace(s)) == WordStarts(s, true)
  {
    var parts := SplitOnSpace(s);
    if s == [] {
    } else {
      var rest := SplitOnSpace(s[1..]);
      FirstLettersAreWordStarts(s[1..]);
      FirstLettersAppend([rest[0]], rest[1..]);
      assert rest == [rest[0]] + rest[1..];
      if s[0] == ' ' {
        assert parts == [""] + rest;
        assert parts[1..] == rest;
        FirstLettersAppend([""], rest);
      } else {
        assert parts == [[s[0]] + rest[0]] + rest[1..];
        assert parts[1..] == rest[1..];
        FirstLettersAppend([[s[0]] + rest[0]], rest[1..]);
      }
    }
  }

  /**
   * The initials are the word starts of the name, so there are never more
   * of them than characters, and none of them is a space.
   */
  lemma InitialsAreWordStarts(name: string)
    ensures Initials(name) == WordStarts(name, true)
    ensures |Initials(name)| <= |name|
    ensures forall ch :: ch in Initials(name) ==> ch != ' '
  {
    FirstLettersAreWordStarts(name);
  }

  // ---------------------------------------------------------------------
  // The component state
  // ---------------------------------------------------------------------

  class ReviewList {
    var customers: seq<Customer>
    /** the customer whose message is open in the editor, if any */
    var editingId: Option<string>
    /** the editor's text */
    var editedMessage: string

    /** The list never holds two customers with the same id. */
    ghost predicate Valid()
      reads this
    {
      UniqueIds(customers)
    }

    /** The state in which the step mounts. */
    constructor ()
      ensures Valid()
      ensures customers == MockCustomers() && editingId == None && editedMessage == ""
    {
      customers := MockCustomers();
      editingId := None;
      editedMessage := "";
      MockCustomersFacts();
    }

    /** Opens the editor on a customer, loaded with that customer's message. */
    method HandleEdit(customer: Customer)
      requires Valid()
      modifies this`editingId, this`editedMessage
      ensures Valid()
      ensures editingId == Some(customer.id) && editedMessage == customer.generatedSMS
      ensures customers == old(customers)
    {
      editingId := Some(customer.id);
      editedMessage := customer.generatedSMS;
    }

    /** Typing in the editor replaces its text. */
    method EditMessage(text: string)
      requires Valid()
      modifies this`editedMessage
      ensures Valid()
      ensures editedMessage == text
      ensures customers == old(customers) && editingId == old(editingId)
    {
      editedMessage := text;
    }

    /** Saves the editor's text into every customer with the id and closes the editor. */
    method HandleSaveEdit(customerId: string)
      requires Valid()
      modifies this
      ensures Valid()
      ensures customers == WithMessage(old(customers), customerId, old(editedMessage))
      ensures editingId == None && editedMessage == ""
    {
      SaveKeepsUniqueIds(customers, customerId, editedMessage);
      customers := WithMessage(customers, customerId, editedMessage);
      editingId := None;
      editedMessage := "";
    }

    /** Closes the editor and discards its text; the list is untouched. */
    method HandleCancelEdit()
      requires Valid()
      modifies this`editingId, this`editedMessage
      ensures Valid()
      ensures editingId == None && editedMessage == ""
      ensures customers == old(customers)
    {
      editingId := None;
      editedMessage := "";
    }

    /** Removes every customer with the id. */
    method HandleDelete(customerId: string)
      requires Valid()
      modifies this`customers
      ensures Valid()
      ensures customers == WithoutId(old(customers), customerId)
      ensures editingId == old(editingId) && editedMessage == old(editedMessage)
    {
      DeleteKeepsUniqueIds(customers, customerId);
      customers := WithoutId(customers, customerId);
    }

    /** The "Total Recipients" figure. */
    function TotalRecipients(): nat
      reads this
    {
      |customers|
    }

    /** The "Platinum Members" figure; never more than the total. */
    function PlatinumMembers(): (n: nat)
      reads this
      ensures n <= TotalRecipients()
    {
      PlatinumCount(customers)
    }
  }

  /** The seeded list has unique ids and two Platinum members among four recipients. */
  lemma MockCustomersFacts()
    ensures UniqueIds(MockCustomers())
    ensures |MockCustomers()| == 4 && PlatinumCount(MockCustomers()) == 2
  {
  }
}
