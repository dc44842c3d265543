/**
 * A decoded PlacePod uplink packet and its keyed setter. Four "status" keys
 * share one slot that can be filled only while it still holds the "not set"
 * value -1; the reading keys overwrite their field every time and any other
 * key is accepted and ignored.
 *
 * Values are JavaScript numbers; they are modelled as `real` and never
 * interpreted, except that the status slot compares them against -1.
 */
module Packets {
  import opened Wrappers

  /** The status value of a packet whose status was never set. */
  const NotSet: real := -1.0

  /** The sensor modes the status keys select. */
  const PresenceMode: string := "Presence"
  const CounterMode: string := "Counter"

  /** The nested `error` record of a packet. */
  datatype ErrorInfo = ErrorInfo(register: Option<real>, state: Option<real>)

  /** The value of a packet's fields. */
  datatype PacketData = PacketData(
    status: real,
    mode: string,
    keepAlive: bool,
    battery: Option<real>,
    temperature: Option<real>,
    error: ErrorInfo)

  /** What a call of the setter returns, with the packet it leaves. */
  datatype Outcome = Outcome(ok: bool, packet: PacketData)

  /** The keys that fill the status slot. */
  predicate IsStatusKey(key: string) {
    key == "presence_21" || key == "presence_55" || key == "digital_input_33" || key == "digital_input_55"
  }

  /** The status keys of keep-alive messages. */
  predicate IsKeepAliveKey(key: string) {
    key == "presence_55" || key == "digital_input_55"
  }

  /** The mode a status key selects. */
  function ModeOf(key: string): string {
    if key == "presence_21" || key == "presence_55" then PresenceMode else CounterMode
  }

  /** The keys that overwrite one reading field. */
  predicate IsReadingKey(key: string) {
    key == "analog_input_3" || key == "temperature_2" || key == "digital_input_5" || key == "digital_input_6"
  }

  /** A new packet, with every field at its default. */
  function NewPacket(): (p: PacketData)
    ensures p.status == NotSet && p.mode == "" && !p.keepAlive
    ensures p.battery == None && p.temperature == None && p.error == ErrorInfo(None, None)
  {
    PacketData(NotSet, "", false, None, None, ErrorInfo(None, None))
  }

  /** The setter (trySet), on values. */
  function Put(p: PacketData, key: string, value: real): (r: Outcome)
    ensures !r.ok <==> IsStatusKey(key) && p.status != NotSet
    ensures !r.ok ==> r.packet == p
    ensures r.packet.status != p.status ==> IsStatusKey(key) && p.status == NotSet && r.packet.status == value
  {
    if key == "presence_21" then
      if p.status != NotSet then Outcome(false, p)
      else Outcome(true, p.(mode := PresenceMode, status := value))
    else if key == "presence_55" then
      if p.status != NotSet then Outcome(false, p)
      else Outcome(true, p.(mode := PresenceMode, status := value, keepAlive := true))
    else if key == "digital_input_33" then
      if p.status != NotSet then Outcome(false, p)
      else Outcome(true, p.(mode := CounterMode, status := value))
    else if key == "digital_input_55" then
      if p.status != NotSet then Outcome(false, p)
      else Outcome(true, p.(mode := CounterMode, status := value, keepAlive := true))
    else if key == "analog_input_3" then
      Outcome(true, p.(battery := Some(value)))
    else if key == "temperature_2" then
      Outcome(true, p.(temperature := Some(value)))
    else if key == "digital_input_5" then
      Outcome(true, p.(error := p.error.(register := Some(value))))
    else if key == "digital_input_6" then
      Outcome(true, p.(error := p.error.(state := Some(value))))
    else
      Outcome(true, p)
  }

  /** A packet, updated in place by its setter. */
  class Packet {
    var status: real
    var mode: string
    var keepAlive: bool
    var battery: Option<real>
    var temperature: Option<real>
    var error: ErrorInfo

    function Data(): PacketData
      reads this
    {
      PacketData(status, mode, keepAlive, battery, temperature, error)
    }

    constructor ()
      ensures Data() == NewPacket()
    {
      status := NotSet;
      mode := "";
      keepAlive := false;
      battery := None;
      temperature := None;
      error := ErrorInfo(None, None);
    }

    /** Set the member the key maps to; false when the key's status slot was already filled. */
    method TrySet(key: string, value: real) returns (ok: bool)
      modifies this
      ensures Outcome(ok, Data()) == Put(old(Data()), key, value)
    {
      if key == "presence_21" {
        if status != NotSet {
          return false;
        }
        mode := PresenceMode;
        status := value;
      } else if key == "presence_55" {
        if status != NotSet {
          return false;
        }
        mode := PresenceMode;
        status := value;
        keepAlive := true;
      } else if key == "digital_input_33" {
        if status != NotSet {
          return false;
        }
        mode := CounterMode;
        status := value;
      } else if key == "digital_input_55" {
        if status != NotSet {
          return false;
        }
        mode := CounterMode;
        status := value;
        keepAlive := true;
      } else if key == "analog_input_3" {
        battery := Some(value);
      } else if key == "temperature_2" {
        temperature := Some(value);
      } else if key == "digital_input_5" {
        error := error.(register := Some(value));
      } else if key == "digital_input_6" {
        error := error.(state := Some(value));
      }
      return true;
    }
  }

  /** A status key fills the slot of an unset packet: status, mode and keep-alive flag; the readings stay. */
  lemma StatusKeyEffects(p: PacketData, key: string, value: real)
    requires IsStatusKey(key) && p.status == NotSet
    ensures var r := Put(p, key, value);
      r.ok && r.packet == p.(status := value, mode := ModeOf(key), keepAlive := p.keepAlive || IsKeepAliveKey(key))
  {
  }

  /** A reading key always succeeds, overwrites exactly its own field and leaves the status slot alone. */
  lemma ReadingKeyEffects(p: PacketData, key: string, value: real)
    requires IsReadingKey(key)
    ensures var r := Put(p, key, value);
      r.ok && r.packet.status == p.status && r.packet.mode == p.mode && r.packet.keepAlive == p.keepAlive
      && r.packet.battery == (if key == "analog_input_3" then Some(value) else p.battery)
      && r.packet.temperature == (if key == "temperature_2" then Some(value) else p.temperature)
      && r.packet.error.register == (if key == "digital_input_5" then Some(value) else p.error.register)
      && r.packet.error.state == (if key == "digital_input_6" then Some(value) else p.error.state)
  {
  }

  /** Any other key is accepted and changes nothing. */
  lemma UnknownKeyIgnored(p: PacketData, key: string, value: real)
    requires !IsStatusKey(key) && !IsReadingKey(key)
    ensures Put(p, key, value) == Outcome(true, p)
  {
  }

  /** A new packet accepts every key. */
  lemma FreshAcceptsEveryKey(key: string, value: real)
    ensures Put(NewPacket(), key, value).ok
  {
  }

  /** The packet after a series of setter calls, the failing ones included. */
  function PutAll(p: PacketData, kvs: seq<(string, real)>): PacketData
    decreases |kvs|
  {
    if kvs == [] then p else PutAll(Put(p, kvs[0].0, kvs[0].1).packet, kvs[1..])
  }

  /** How many calls of such a series change the status. */
  function StatusWrites(p: PacketData, kvs: seq<(string, real)>): nat
    decreases |kvs|
  {
    if kvs == [] then 0
    else
      var q := Put(p, kvs[0].0, kvs[0].1).packet;
      (if q.status != p.status then 1 else 0) + StatusWrites(q, kvs[1..])
  }

  /** No status key of the series carries the "not set" value itself. */
  predicate NoUnsetStatus(kvs: seq<(string, real)>) {
    forall i | 0 <= i < |kvs| :: IsStatusKey(kvs[i].0) ==> kvs[i].1 != NotSet
  }

  /**
   * The status of a packet is written at most once, and never once it is
   * set. A status key carrying -1 on an unset packet is accepted but leaves
   * the status at -1, so it is no write.
   */
  lemma {:induction false} StatusWrittenAtMostOnce(p: PacketData, kvs: seq<(string, real)>)
    ensures StatusWrites(p, kvs) <= (if p.status == NotSet then 1 else 0)
    ensures p.status != NotSet ==> PutAll(p, kvs).status == p.status
    decreases |kvs|
  {
    if kvs != [] {
      var q := Put(p, kvs[0].0, kvs[0].1).packet;
      StatusWrittenAtMostOnce(q, kvs[1..]);
      if q.status != p.status {
        assert q.status == kvs[0].1 && IsStatusKey(kvs[0].0);
      }
    }
  }

  /** A status key whose value is -1 leaves an unset packet unset, so the next status key still fills it. */
  lemma MinusOneLeavesUnset(key: string)
    requires IsStatusKey(key)
    ensures Put(Put(NewPacket(), key, NotSet).packet, key, 5.0).ok
  {
  }
}
