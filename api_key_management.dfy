/** The API key page: key generation from 32 alphabet picks, the stored prefix, the
    lower-case hex form of the key's digest, the visibility toggle of a key's prefix,
    the add form with its scope toggle and reset, and the insert row the page builds.
    Randomness and the SHA-256 digest are inputs; the database answer is an input. */
module ApiKeyManagement {
  import opened Base
  import opened Text
  import Lists

  /** Every generated key starts with this. */
  const LivePrefix: string := "sk_live_"

  /** The number of random characters after the prefix. */
  const RandomLength: nat := 32

  predicate IsAlnum(c: char)
  {
    ('A' <= c <= 'Z') || ('a' <= c <= 'z') || ('0' <= c <= '9')
  }

  /** The alphabet by position: upper case, then lower case, then digits. */
  function AlphabetChar(i: nat): (c: char)
    requires i < 62
    ensures IsAlnum(c)
  {
    if i < 26 then ('A' as int + i) as char
    else if i < 52 then ('a' as int + (i - 26)) as char
    else ('0' as int + (i - 52)) as char
  }

  /** The 62-character alphabet `ABCDEFGHIJKLMNOPQRSTUVWXYZabcdefghijklmnopqrstuvwxyz0123456789`. */
  function Alphabet(): (s: string)
    ensures |s| == 62 && forall i :: 0 <= i < 62 ==> s[i] == AlphabetChar(i)
  {
    seq(62, i requires 0 <= i < 62 => AlphabetChar(i))
  }

  /** The alphabet's 62 characters are alphanumeric and pairwise different. */
  lemma AlphabetShape()
    ensures |Alphabet()| == 62
    ensures forall i :: 0 <= i < 62 ==> IsAlnum(Alphabet()[i])
    ensures forall i, j :: 0 <= i < 62 && 0 <= j < 62 && Alphabet()[i] == Alphabet()[j] ==> i == j
  {
  }

  /** The characters chosen by the picks. */
  function Picked(picks: seq<nat>, n: nat): (r: string)
    requires n <= |picks| && forall i :: 0 <= i < |picks| ==> picks[i] < 62
    ensures |r| == n
    ensures forall i :: 0 <= i < n ==> r[i] == Alphabet()[picks[i]]
  {
    if n == 0 then [] else Picked(picks, n - 1) + [Alphabet()[picks[n - 1]]]
  }

  /** The key that `generateApiKey` produces when `Math.floor(Math.random() * 62)` yields
      `picks[0]`, …, `picks[31]` in turn. */
  function KeyOf(picks: seq<nat>): string
    requires |picks| == RandomLength && forall i :: 0 <= i < |picks| ==> picks[i] < 62
  {
    LivePrefix + Picked(picks, RandomLength)
  }

  /** `generateApiKey`: append one alphabet character per pick to the prefix. */
  method GenerateApiKey(picks: seq<nat>) returns (key: string)
    requires |picks| == RandomLength && forall i :: 0 <= i < |picks| ==> picks[i] < 62
    ensures key == KeyOf(picks)
  {
    key := LivePrefix;
    var i := 0;
    while i < RandomLength
      invariant 0 <= i <= RandomLength
      invariant key == LivePrefix + Picked(picks, i)
    {
      key := key + [Alphabet()[picks[i]]];
      i := i + 1;
    }
  }

  /** A generated key is 40 characters: the live prefix, then 32 alphanumeric characters,
      the i-th being the character at the i-th pick. */
  lemma KeyShape(picks: seq<nat>)
    requires |picks| == RandomLength && forall i :: 0 <= i < |picks| ==> picks[i] < 62
    ensures |KeyOf(picks)| == 40
    ensures KeyOf(picks)[..8] == LivePrefix
    ensures forall i :: 8 <= i < 40 ==> IsAlnum(KeyOf(picks)[i]) && KeyOf(picks)[i] == Alphabet()[picks[i - 8]]
  {
    AlphabetShape();
    var k := KeyOf(picks);
    forall i | 8 <= i < 40
      ensures IsAlnum(k[i]) && k[i] == Alphabet()[picks[i - 8]]
    {
      assert k[i] == Picked(picks, RandomLength)[i - 8];
    }
  }

  /** Different picks give different keys: the key determines the picks. */
  lemma KeyInjective(p: seq<nat>, q: seq<nat>)
    requires |p| == RandomLength && forall i :: 0 <= i < |p| ==> p[i] < 62
    requires |q| == RandomLength && forall i :: 0 <= i < |q| ==> q[i] < 62
    requires KeyOf(p) == KeyOf(q)
    ensures p == q
  {
    AlphabetShape();
    KeyShape(p);
    KeyShape(q);
    forall i | 0 <= i < RandomLength
      ensures p[i] == q[i]
    {
      assert KeyOf(p)[i + 8] == KeyOf(q)[i + 8];
    }
  }

  /** `fullKey.substring(0, 12) + '...'`: the part of the key that is stored in clear. */
  function StoredPrefix(fullKey: string): (r: string)
    ensures |r| == (if |fullKey| < 12 then |fullKey| else 12) + 3
    ensures r[|r| - 3..] == "..."
    ensures StartsWith(fullKey, r[..|r| - 3])
  {
    (if |fullKey| < 12 then fullKey else fullKey[..12]) + "..."
  }

  /** The stored prefix of a generated key is the live prefix, its first four random
      characters and the dots: fifteen characters, of which four come from the picks. */
  lemma StoredPrefixOfKey(picks: seq<nat>)
    requires |picks| == RandomLength && forall i :: 0 <= i < |picks| ==> picks[i] < 62
    ensures StoredPrefix(KeyOf(picks)) == LivePrefix + [Alphabet()[picks[0]], Alphabet()[picks[1]], Alphabet()[picks[2]], Alphabet()[picks[3]]] + "..."
    ensures |StoredPrefix(KeyOf(picks))| == 15
  {
    KeyShape(picks);
    var k := KeyOf(picks);
    assert k[..12] == LivePrefix + [k[8], k[9], k[10], k[11]];
  }

  /** A digest byte. */
  newtype Byte = b: int | 0 <= b < 256

  predicate IsLowerHex(c: char)
  {
    ('0' <= c <= '9') || ('a' <= c <= 'f')
  }

  /** The lower-case hex digit of a value below 16. */
  function HexDigit(d: nat): (c: char)
    requires d < 16
    ensures IsLowerHex(c)
  {
    if d < 10 then ('0' as int + d) as char else ('a' as int + (d - 10)) as char
  }

  /** The value of a lower-case hex digit. */
  function HexValue(c: char): (d: nat)
    requires IsLowerHex(c)
    ensures d < 16 && HexDigit(d) == c
  {
    if c <= '9' then c as int - '0' as int else c as int - 'a' as int + 10
  }

  /** `b.toString(16)`: one digit below 16, two from there on. */
  function ToHexString(b: Byte): string
  {
    if b < 16 then [HexDigit(b as nat)] else [HexDigit(b as nat / 16), HexDigit(b as nat % 16)]
  }

  /** `.padStart(2, '0')`. */
  function PadStart2(s: string): string
  {
    if |s| == 0 then "00" else if |s| == 1 then "0" + s else s
  }

  /** `b.toString(16).padStart(2, '0')`: always the high digit, then the low digit. */
  function HexByte(b: Byte): (r: string)
    ensures |r| == 2
    ensures r == [HexDigit(b as nat / 16), HexDigit(b as nat % 16)]
  {
    PadStart2(ToHexString(b))
  }

  /** The hex form of the digest: `hashArray.map(...).join('')`. */
  function HexEncode(bytes: seq<Byte>): (r: string)
    ensures |r| == 2 * |bytes|
    ensures forall i :: 0 <= i < |r| ==> IsLowerHex(r[i])
  {
    if bytes == [] then [] else HexByte(bytes[0]) + HexEncode(bytes[1..])
  }

  /** Lower-case hex of even length. */
  predicate IsHexText(s: string)
  {
    |s| % 2 == 0 && forall i :: 0 <= i < |s| ==> IsLowerHex(s[i])
  }

  /** Reading hex text two digits at a time. */
  function HexDecode(s: string): (bytes: seq<Byte>)
    requires IsHexText(s)
    ensures |bytes| == |s| / 2
  {
    if s == [] then []
    else
      assert IsLowerHex(s[0]) && IsLowerHex(s[1]);
      [(16 * HexValue(s[0]) + HexValue(s[1])) as Byte] + HexDecode(s[2..])
  }

  /** The hex form loses nothing: decoding it gives the digest back. */
  lemma {:induction false} HexRoundTrip(bytes: seq<Byte>)
    ensures IsHexText(HexEncode(bytes))
    ensures HexDecode(HexEncode(bytes)) == bytes
  {
    if bytes != [] {
      HexRoundTrip(bytes[1..]);
      var e := HexEncode(bytes);
      assert e[2..] == HexEncode(bytes[1..]);
      var b := bytes[0] as nat;
      assert HexValue(e[0]) == b / 16 && HexValue(e[1]) == b % 16;
    }
  }

  /** Every lower-case hex text of even length is the hex form of exactly one digest. */
  lemma {:induction false} HexDecodeRoundTrip(s: string)
    requires IsHexText(s)
    ensures HexEncode(HexDecode(s)) == s
    decreases |s|
  {
    if s != [] {
      HexDecodeRoundTrip(s[2..]);
      var d := HexDecode(s);
      var b := 16 * HexValue(s[0]) + HexValue(s[1]);
      assert d[0] as nat == b && d[1..] == HexDecode(s[2..]);
      assert b / 16 == HexValue(s[0]) && b % 16 == HexValue(s[1]);
      assert s == s[..2] + s[2..];
    }
  }

  /** `toggleKeyVisibility`'s new set: the id flips, every other id stays as it was. */
  function ToggleVisible(visible: set<string>, keyId: string): (r: set<string>)
    ensures keyId in r <==> keyId !in visible
    ensures forall id :: id != keyId ==> (id in r <==> id in visible)
  {
    if keyId in visible then visible - {keyId} else visible + {keyId}
  }

  /** Toggling twice restores the set. */
  lemma ToggleVisibleTwice(visible: set<string>, keyId: string)
    ensures ToggleVisible(ToggleVisible(visible, keyId), keyId) == visible
  {
  }

  /** The mask shown in place of a hidden prefix: twelve bullets. */
  const Mask: string := "••••••••••••"

  /** An `api_keys` row, as far as the page reads it. */
  datatype ApiKey = ApiKey(
    id: string,
    name: string,
    keyPrefix: string,
    scope: seq<string>,
    rateLimit: Option<int>,
    lastUsedAt: Option<string>,
    expiresAt: Option<string>,
    isActive: bool)

  /** The key column: the stored prefix when the key's id is visible, the mask otherwise. */
  function KeyCell(visible: set<string>, key: ApiKey): string
  {
    if key.id in visible then key.keyPrefix else Mask
  }

  /** Toggling a key switches its own column between mask and prefix and leaves every
      other key's column as it was. */
  lemma ToggleSwitchesCell(visible: set<string>, key: ApiKey, other: ApiKey)
    requires other.id != key.id
    ensures KeyCell(ToggleVisible(visible, key.id), key) == (if key.id in visible then Mask else key.keyPrefix)
    ensures KeyCell(ToggleVisible(visible, key.id), other) == KeyCell(visible, other)
  {
  }

  /** The status badge: variant and text. */
  function StatusBadge(isActive: bool): (badge: (string, string))
    ensures badge.0 == "success" <==> isActive
    ensures badge.1 == "Active" <==> isActive
    ensures !isActive ==> badge == ("danger", "Inactive")
  {
    if isActive then ("success", "Active") else ("danger", "Inactive")
  }

  /** The add form's state. */
  datatype KeyForm = KeyForm(name: string, scope: seq<string>, rateLimit: string, expiresAt: string)

  /** The form when the modal opens and after each submit. */
  const EmptyKeyForm: KeyForm := KeyForm("", ["read"], "1000", "")

  /** `toggleScope`: the scope leaves the list when present and is appended otherwise;
      the other fields stay. */
  function ToggleScope(form: KeyForm, scope: string): (r: KeyForm)
    ensures scope in r.scope <==> scope !in form.scope
    ensures forall s :: s != scope ==> (s in r.scope <==> s in form.scope)
    ensures r.name == form.name && r.rateLimit == form.rateLimit && r.expiresAt == form.expiresAt
  {
    form.(scope := Lists.Toggle(form.scope, scope))
  }

  /** The row `handleAddApiKey` inserts. */
  datatype KeyInsert = KeyInsert(
    userId: Option<string>,
    organizationId: Option<string>,
    name: string,
    keyPrefix: string,
    keyHash: string,
    scope: seq<string>,
    rateLimit: Option<int>,
    expiresAt: Option<string>,
    isActive: bool)

  /** The insert row for a form, a generated key and its digest: the prefix and hash are
      derived from the key, the rate limit is parsed, an empty expiry becomes null and the
      key starts active. */
  function NewKeyRow(userId: Option<string>, organizationId: Option<string>, form: KeyForm,
                     fullKey: string, digest: seq<Byte>): (row: KeyInsert)
    ensures row.isActive
    ensures row.keyPrefix == StoredPrefix(fullKey)
    ensures IsHexText(row.keyHash) && HexDecode(row.keyHash) == digest
    ensures row.expiresAt.None? <==> form.expiresAt == ""
    ensures row.name == form.name && row.scope == form.scope
    ensures row.rateLimit == ParseInt(form.rateLimit)
  {
    HexRoundTrip(digest);
    KeyInsert(userId, organizationId, form.name, StoredPrefix(fullKey), HexEncode(digest),
              form.scope, ParseInt(form.rateLimit), if form.expiresAt == "" then None else Some(form.expiresAt), true)
  }

  /** The query `fetchApiKeys` runs: administrators see their organization's keys, others
      their own; a missing id filters on the empty string. */
  function KeyFilter(isAdmin: bool, userId: Option<string>, organizationId: Option<string>): (f: (string, string))
    ensures isAdmin ==> f.0 == "organization_id" && f.1 == OrStr(organizationId, "")
    ensures !isAdmin ==> f.0 == "user_id" && f.1 == OrStr(userId, "")
  {
    if isAdmin then ("organization_id", OrStr(organizationId, "")) else ("user_id", OrStr(userId, ""))
  }

  /** `handleDeleteKey`'s update: the key with the id turns inactive, nothing is removed. */
  function Deactivate(keys: seq<ApiKey>, keyId: string): (r: seq<ApiKey>)
    ensures |r| == |keys|
    ensures forall i :: 0 <= i < |keys| ==>
      r[i] == if keys[i].id == keyId then keys[i].(isActive := false) else keys[i]
  {
    seq(|keys|, i requires 0 <= i < |keys| => if keys[i].id == keyId then keys[i].(isActive := false) else keys[i])
  }

  /** Deactivation keeps every key, leaves no key with the id active, and deactivating
      again changes nothing. */
  lemma DeactivateKeepsKeys(keys: seq<ApiKey>, keyId: string)
    ensures forall i :: 0 <= i < |keys| ==> Deactivate(keys, keyId)[i].id == keys[i].id
    ensures forall i :: 0 <= i < |keys| && keys[i].id == keyId ==> !Deactivate(keys, keyId)[i].isActive
    ensures Deactivate(Deactivate(keys, keyId), keyId) == Deactivate(keys, keyId)
  {
  }

  /** The add form component's state. */
  class AddKeyFormView {
    var form: KeyForm

    constructor ()
      ensures form == EmptyKeyForm
    {
      form := EmptyKeyForm;
    }

    method ToggleScopeOf(scope: string)
      modifies this
      ensures form == ToggleScope(old(form), scope)
    {
      form := ToggleScope(form, scope);
    }

    /** `handleSubmit`: hand the form to the page, then reset it. */
    method Submit() returns (submitted: KeyForm)
      modifies this
      ensures submitted == old(form) && form == EmptyKeyForm
    {
      submitted := form;
      form := EmptyKeyForm;
    }
  }

  /** The page's state. A database answer is an input: `listed` is what a fetch returns
      (`None` for `null` data), `written` whether a write succeeded. */
  class ApiKeysView {
    var apiKeys: seq<ApiKey>
    var visibleKeys: set<string>
    var showAddModal: bool
    var showKeyModal: bool
    var newGeneratedKey: string
    var inserted: seq<KeyInsert>
    /** The ids of the keys the page has set inactive in the `api_keys` table. */
    var deactivated: seq<string>

    constructor ()
      ensures apiKeys == [] && visibleKeys == {} && !showAddModal && !showKeyModal
      ensures newGeneratedKey == "" && inserted == [] && deactivated == []
    {
      apiKeys := [];
      visibleKeys := {};
      showAddModal := false;
      showKeyModal := false;
      newGeneratedKey := "";
      inserted := [];
      deactivated := [];
    }

    /** `fetchApiKeys` after a successful query: `data || []`. */
    method Loaded(listed: Option<seq<ApiKey>>)
      modifies this
      ensures apiKeys == (if listed.Some? then listed.value else [])
      ensures visibleKeys == old(visibleKeys) && showAddModal == old(showAddModal)
      ensures showKeyModal == old(showKeyModal) && newGeneratedKey == old(newGeneratedKey)
      ensures inserted == old(inserted) && deactivated == old(deactivated)
    {
      apiKeys := if listed.Some? then listed.value else [];
    }

    /** `toggleKeyVisibility`: copy the set, then delete or add the id. */
    method ToggleKeyVisibility(keyId: string)
      modifies this
      ensures visibleKeys == ToggleVisible(old(visibleKeys), keyId)
      ensures apiKeys == old(apiKeys) && showAddModal == old(showAddModal)
      ensures showKeyModal == old(showKeyModal) && newGeneratedKey == old(newGeneratedKey)
      ensures inserted == old(inserted) && deactivated == old(deactivated)
    {
      var next := visibleKeys;
      if keyId in next {
        next := next - {keyId};
      } else {
        next := next + {keyId};
      }
      visibleKeys := next;
    }

    /** `handleAddApiKey`: generate a key, hash it, insert the row; on success show the
        full key once in its own modal and close the add modal. */
    method AddApiKey(userId: Option<string>, organizationId: Option<string>, form: KeyForm,
                     picks: seq<nat>, digest: seq<Byte>, written: bool)
      requires |picks| == RandomLength && forall i :: 0 <= i < |picks| ==> picks[i] < 62
      modifies this
      ensures written ==>
        && inserted == old(inserted) + [NewKeyRow(userId, organizationId, form, KeyOf(picks), digest)]
        && newGeneratedKey == KeyOf(picks) && !showAddModal && showKeyModal
      ensures !written ==>
        && inserted == old(inserted) && newGeneratedKey == old(newGeneratedKey)
        && showAddModal == old(showAddModal) && showKeyModal == old(showKeyModal)
      ensures apiKeys == old(apiKeys) && visibleKeys == old(visibleKeys) && deactivated == old(deactivated)
    {
      var fullKey := GenerateApiKey(picks);
      var row := NewKeyRow(userId, organizationId, form, fullKey, digest);
      if written {
        Created(fullKey, row);
      }
    }

    /** `handleDeleteKey`: after the confirmation, a successful update sets the key inactive
        in the table; the list on the page changes only when `fetchApiKeys` reloads it
        (`Loaded`). A declined confirmation or a failed write changes nothing. */
    method DeleteKey(keyId: string, confirmed: bool, written: bool)
      modifies this
      ensures deactivated == (if confirmed && written then old(deactivated) + [keyId] else old(deactivated))
      ensures apiKeys == old(apiKeys)
      ensures visibleKeys == old(visibleKeys) && showAddModal == old(showAddModal)
      ensures showKeyModal == old(showKeyModal) && newGeneratedKey == old(newGeneratedKey)
      ensures inserted == old(inserted)
    {
      if !confirmed {
        return;
      }
      if written {
        deactivated := deactivated + [keyId];
      }
    }

    /** Closing the new-key modal forgets the full key. */
    method CloseKeyModal()
      modifies this
      ensures !showKeyModal && newGeneratedKey == ""
      ensures apiKeys == old(apiKeys) && visibleKeys == old(visibleKeys)
      ensures showAddModal == old(showAddModal) && inserted == old(inserted)
      ensures deactivated == old(deactivated)
    {
      showKeyModal := false;
      newGeneratedKey := "";
    }

    /** A successful insert: record the row, show the full key, swap the modals. */
    method Created(fullKey: string, row: KeyInsert)
      modifies this
      ensures inserted == old(inserted) + [row] && newGeneratedKey == fullKey
      ensures !showAddModal && showKeyModal
      ensures apiKeys == old(apiKeys) && visibleKeys == old(visibleKeys)
      ensures deactivated == old(deactivated)
    {
      inserted := inserted + [row];
      newGeneratedKey := fullKey;
      showAddModal := false;
      showKeyModal := true;
    }
  }
}
