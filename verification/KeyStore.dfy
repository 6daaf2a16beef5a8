/** The store that maps addresses and subnets to keys and holds packets whose
    key is still being looked up (src/ipv6rwc/ipv6rwc.go). */
module KeyStore {
  import opened Basics

  type Key = nat
  type Addr = nat
  type Subnet = nat

  /** keyInfo; `id` stands for the object's identity. */
  datatype KeyInfo = KeyInfo(id: nat, key: Key, address: Addr, subnet: Subnet)

  /** buffer; `id` stands for the object's identity. */
  datatype Buffer = Buffer(id: nat, packet: Packet)

  /** A packet handed to the store, told apart by a serial number. */
  datatype Packet = Packet(serial: nat, bytes: seq<nat>)

  datatype Target = ToAddress(addr: Addr) | ToSubnet(subnet: Subnet)

  /** A packet written to a key, and what it was meant for. */
  datatype Write = Write(key: Key, packet: Packet, target: Target)

  class KeyStore {
    const addrOf: Key -> Addr
    const subnetOf: Key -> Subnet
    const keyOfAddr: Addr -> Key      // the partial key of an address
    const keyOfSubnet: Subnet -> Key  // and of a subnet

    var keyToInfo: map<Key, KeyInfo>
    var addrToInfo: map<Addr, KeyInfo>
    var subnetToInfo: map<Subnet, KeyInfo>
    var addrBuffer: map<Addr, Buffer>
    var subnetBuffer: map<Subnet, Buffer>
    var nextId: nat

    ghost var taken: set<nat>       // serial numbers of all packets handed in
    ghost var written: seq<Write>   // everything passed on, in order

    ghost predicate WellMade(i: KeyInfo)
    {
      i.address == addrOf(i.key) && i.subnet == subnetOf(i.key)
    }

    /** The indices only point to live entries that derive the index key. */
    ghost predicate IndicesLive()
      reads this`keyToInfo, this`addrToInfo, this`subnetToInfo, this`nextId
    {
      && (forall k :: k in keyToInfo ==> keyToInfo[k].key == k && WellMade(keyToInfo[k]) && keyToInfo[k].id < nextId)
      && (forall a :: a in addrToInfo ==>
            && addrToInfo[a].address == a && addrToInfo[a].key in keyToInfo
            && keyToInfo[addrToInfo[a].key] == addrToInfo[a])
      && (forall s :: s in subnetToInfo ==>
            && subnetToInfo[s].subnet == s && subnetToInfo[s].key in keyToInfo
            && keyToInfo[subnetToInfo[s].key] == subnetToInfo[s])
    }

    /** Nothing is both indexed and buffered; the buffers hold distinct packets. */
    ghost predicate BuffersApart()
      reads this`addrToInfo, this`subnetToInfo, this`addrBuffer, this`subnetBuffer
    {
      addrToInfo.Keys !! addrBuffer.Keys && subnetToInfo.Keys !! subnetBuffer.Keys && BuffersDistinct()
    }

    ghost predicate NotWritten(serial: nat)
      reads this`taken, this`written
    {
      serial in taken && forall i :: 0 <= i < |written| ==> written[i].packet.serial != serial
    }

    /** Every packet went to a key that derives its target, at most once; what
        is buffered has not gone anywhere. */
    ghost predicate WritesGood()
      reads this`taken, this`written, this`addrBuffer, this`subnetBuffer
    {
      && (forall i :: 0 <= i < |written| ==> Derives(addrOf, subnetOf, written[i]) && written[i].packet.serial in taken)
      && (forall i, j :: 0 <= i < j < |written| ==> written[i].packet.serial != written[j].packet.serial)
      && (forall a :: a in addrBuffer ==> NotWritten(addrBuffer[a].packet.serial))
      && (forall s :: s in subnetBuffer ==> NotWritten(subnetBuffer[s].packet.serial))
    }

    ghost predicate Valid()
      reads this
    {
      IndicesLive() && BuffersApart() && WritesGood()
    }

    constructor (addr: Key -> Addr, subnet: Key -> Subnet, partialAddr: Addr -> Key, partialSubnet: Subnet -> Key)
      ensures Valid() && addrOf == addr && subnetOf == subnet && written == [] && taken == {}
      ensures keyOfAddr == partialAddr && keyOfSubnet == partialSubnet
      ensures keyToInfo == map[] && addrToInfo == map[] && subnetToInfo == map[] && addrBuffer == map[]
    {
      addrOf, subnetOf, keyOfAddr, keyOfSubnet := addr, subnet, partialAddr, partialSubnet;
      keyToInfo, addrToInfo, subnetToInfo := map[], map[], map[];
      addrBuffer, subnetBuffer := map[], map[];
      nextId, taken, written := 0, {}, [];
    }

    /** `sendToAddress`: pass on at once, or keep the newest packet and look up the key. */
    method SendToAddress(addr: Addr, packet: Packet) returns (key: Option<Key>, lookup: Option<Key>)
      requires Valid() && packet.serial !in taken
      modifies this`addrBuffer, this`nextId, this`taken, this`written
      ensures Valid() && taken == old(taken) + {packet.serial}
      ensures key.Some? <==> addr in addrToInfo
      ensures lookup == if addr in addrToInfo then None else Some(keyOfAddr(addr))
      ensures key.Some? ==>
                addrOf(key.value) == addr && written == old(written) + [Write(key.value, packet, ToAddress(addr))]
      ensures key.None? ==> written == old(written) && addr in addrBuffer && addrBuffer[addr].packet == packet
      ensures addrBuffer - {addr} == old(addrBuffer) - {addr}
    {
      if addr in addrToInfo {
        var info := addrToInfo[addr];
        key, lookup := Some(info.key), None;
        PassOn(Write(info.key, packet, ToAddress(addr)));
      } else {
        key, lookup := None, Some(keyOfAddr(addr));
        HoldForAddress(addr, packet);
      }
    }

    /** `WriteTo` of a packet just handed in. */
    method PassOn(w: Write)
      requires Valid() && w.packet.serial !in taken && Derives(addrOf, subnetOf, w)
      modifies this`taken, this`written
      ensures Valid() && taken == old(taken) + {w.packet.serial} && written == old(written) + [w]
    {
      taken := taken + {w.packet.serial};
      written := written + [w];
    }

    method HoldForAddress(addr: Addr, packet: Packet)
      requires Valid() && packet.serial !in taken && addr !in addrToInfo
      modifies this`addrBuffer, this`nextId, this`taken
      ensures Valid() && taken == old(taken) + {packet.serial}
      ensures addr in addrBuffer && addrBuffer[addr].packet == packet && addrBuffer - {addr} == old(addrBuffer) - {addr}
    {
      var id := if addr in addrBuffer then addrBuffer[addr].id else nextId;
      if addr !in addrBuffer {
        nextId := nextId + 1;
      }
      addrBuffer := addrBuffer[addr := Buffer(id, packet)];
      taken := taken + {packet.serial};
    }

    method HoldForSubnet(subnet: Subnet, packet: Packet)
      requires Valid() && packet.serial !in taken && subnet !in subnetToInfo
      modifies this`subnetBuffer, this`nextId, this`taken
      ensures Valid() && taken == old(taken) + {packet.serial}
      ensures subnet in subnetBuffer && subnetBuffer[subnet].packet == packet &&
              subnetBuffer - {subnet} == old(subnetBuffer) - {subnet}
    {
      var id := if subnet in subnetBuffer then subnetBuffer[subnet].id else nextId;
      if subnet !in subnetBuffer {
        nextId := nextId + 1;
      }
      subnetBuffer := subnetBuffer[subnet := Buffer(id, packet)];
      taken := taken + {packet.serial};
    }

    /** `sendToSubnet`: the same by subnet. */
    method SendToSubnet(subnet: Subnet, packet: Packet) returns (key: Option<Key>, lookup: Option<Key>)
      requires Valid() && packet.serial !in taken
      modifies this`subnetBuffer, this`nextId, this`taken, this`written
      ensures Valid() && taken == old(taken) + {packet.serial}
      ensures key.Some? <==> subnet in subnetToInfo
      ensures lookup == if subnet in subnetToInfo then None else Some(keyOfSubnet(subnet))
      ensures key.Some? ==>
                subnetOf(key.value) == subnet && written == old(written) + [Write(key.value, packet, ToSubnet(subnet))]
      ensures key.None? ==> written == old(written) && subnet in subnetBuffer && subnetBuffer[subnet].packet == packet
      ensures subnetBuffer - {subnet} == old(subnetBuffer) - {subnet}
    {
      if subnet in subnetToInfo {
        var info := subnetToInfo[subnet];
        key, lookup := Some(info.key), None;
        PassOn(Write(info.key, packet, ToSubnet(subnet)));
      } else {
        key, lookup := None, Some(keyOfSubnet(subnet));
        HoldForSubnet(subnet, packet);
      }
    }

    /** `update`: a key has been found; index it and flush what waited for it.  A
        packet that waits for the key's address leaves if and only if the key was
        not known before. */
    method Update(key: Key) returns (info: KeyInfo)
      requires Valid()
      modifies this
      ensures Valid() && taken == old(taken)
      ensures key in keyToInfo && keyToInfo[key] == info
      ensures key in old(keyToInfo) ==> unchanged(this)
      ensures addrOf(key) in old(addrBuffer) ==> (addrOf(key) !in addrBuffer <==> key !in old(keyToInfo))
      ensures subnetOf(key) in old(subnetBuffer) ==> (subnetOf(key) !in subnetBuffer <==> key !in old(keyToInfo))
      ensures key !in old(keyToInfo) ==>
                && keyToInfo == old(keyToInfo)[key := info]
                && addrToInfo == old(addrToInfo)[addrOf(key) := info]
                && subnetToInfo == old(subnetToInfo)[subnetOf(key) := info]
                && addrBuffer == old(addrBuffer) - {addrOf(key)} && subnetBuffer == old(subnetBuffer) - {subnetOf(key)}
                && (addrOf(key) in old(addrBuffer) ==>
                      Write(key, old(addrBuffer)[addrOf(key)].packet, ToAddress(addrOf(key))) in written)
                && (subnetOf(key) in old(subnetBuffer) ==>
                      Write(key, old(subnetBuffer)[subnetOf(key)].packet, ToSubnet(subnetOf(key))) in written)
                && written == old(written) + Flushed(old(addrBuffer), old(subnetBuffer), key, addrOf(key),
                                                     subnetOf(key))
    {
      if key in keyToInfo {
        info := keyToInfo[key];
      } else {
        info := AddKey(key);
      }
    }

    method AddKey(key: Key) returns (info: KeyInfo)
      requires Valid() && key !in keyToInfo
      modifies this
      ensures Valid() && taken == old(taken)
      ensures keyToInfo == old(keyToInfo)[key := info]
      ensures addrToInfo == old(addrToInfo)[addrOf(key) := info] &&
              subnetToInfo == old(subnetToInfo)[subnetOf(key) := info]
      ensures addrBuffer == old(addrBuffer) - {addrOf(key)} && subnetBuffer == old(subnetBuffer) - {subnetOf(key)}
      ensures written == old(written) + Flushed(old(addrBuffer), old(subnetBuffer), key, addrOf(key), subnetOf(key))
    {
      info := Index(key);
      Flush(info);
    }

    /** The packets waiting for the entry's address and subnet go to its key. */
    method Flush(info: KeyInfo)
      requires WellMade(info) && WritesGood() && BuffersDistinct()
      modifies this`addrBuffer, this`subnetBuffer, this`written
      ensures WritesGood() && BuffersDistinct()
      ensures addrBuffer == old(addrBuffer) - {info.address} && subnetBuffer == old(subnetBuffer) - {info.subnet}
      ensures written == old(written) + Flushed(old(addrBuffer), old(subnetBuffer), info.key, info.address, info.subnet)
    {
      FlushAddress(info);
      FlushSubnet(info);
    }

    /** A new entry enters all three maps; its buffers are about to be flushed. */
    method Index(key: Key) returns (info: KeyInfo)
      requires Valid() && key !in keyToInfo
      modifies this`keyToInfo, this`addrToInfo, this`subnetToInfo, this`nextId
      ensures info.key == key && WellMade(info) && IndicesLive() && WritesGood()
      ensures keyToInfo == old(keyToInfo)[key := info]
      ensures addrToInfo == old(addrToInfo)[addrOf(key) := info] &&
              subnetToInfo == old(subnetToInfo)[subnetOf(key) := info]
    {
      info := KeyInfo(nextId, key, addrOf(key), subnetOf(key));
      nextId := nextId + 1;
      keyToInfo := keyToInfo[key := info];
      addrToInfo := addrToInfo[info.address := info];
      subnetToInfo := subnetToInfo[info.subnet := info];
    }

    method FlushAddress(info: KeyInfo)
      requires WellMade(info) && WritesGood() && BuffersDistinct()
      modifies this`addrBuffer, this`written
      ensures WritesGood() && BuffersDistinct() && addrBuffer == old(addrBuffer) - {info.address}
      ensures written == old(written) + if info.address in old(addrBuffer)
                then [Write(info.key, old(addrBuffer)[info.address].packet, ToAddress(info.address))] else []
    {
      if info.address in addrBuffer {
        written := written + [Write(info.key, addrBuffer[info.address].packet, ToAddress(info.address))];
        addrBuffer := addrBuffer - {info.address};
      } else {
        assert addrBuffer - {info.address} == addrBuffer;
      }
    }

    method FlushSubnet(info: KeyInfo)
      requires WellMade(info) && WritesGood() && BuffersDistinct()
      modifies this`subnetBuffer, this`written
      ensures WritesGood() && BuffersDistinct() && subnetBuffer == old(subnetBuffer) - {info.subnet}
      ensures written == old(written) + if info.subnet in old(subnetBuffer)
                then [Write(info.key, old(subnetBuffer)[info.subnet].packet, ToSubnet(info.subnet))] else []
    {
      if info.subnet in subnetBuffer {
        written := written + [Write(info.key, subnetBuffer[info.subnet].packet, ToSubnet(info.subnet))];
        subnetBuffer := subnetBuffer - {info.subnet};
      } else {
        assert subnetBuffer - {info.subnet} == subnetBuffer;
      }
    }

    ghost predicate BuffersDistinct()
      reads this`addrBuffer, this`subnetBuffer
    {
      && (forall a, b :: a in addrBuffer && b in addrBuffer && a != b ==>
          addrBuffer[a].packet.serial != addrBuffer[b].packet.serial)
      && (forall a, b :: a in subnetBuffer && b in subnetBuffer && a != b ==>
          subnetBuffer[a].packet.serial != subnetBuffer[b].packet.serial)
      && (forall a, b :: a in addrBuffer && b in subnetBuffer ==>
          addrBuffer[a].packet.serial != subnetBuffer[b].packet.serial)
    }

    /** The timer of any entry ever made fires, however stale: it only removes
        what is still that very entry. */
    method InfoTimeout(info: KeyInfo)
      requires Valid() && WellMade(info)
      modifies this`keyToInfo, this`addrToInfo, this`subnetToInfo
      ensures Valid()
      ensures forall k :: k in old(keyToInfo) ==> (k in keyToInfo <==> old(keyToInfo)[k] != info)
      ensures forall a :: a in old(addrToInfo) ==> (a in addrToInfo <==> old(addrToInfo)[a] != info)
      ensures forall s :: s in old(subnetToInfo) ==> (s in subnetToInfo <==> old(subnetToInfo)[s] != info)
      ensures keyToInfo == Without(old(keyToInfo), info.key, info)
      ensures addrToInfo == Without(old(addrToInfo), info.address, info)
      ensures subnetToInfo == Without(old(subnetToInfo), info.subnet, info)
    {
      RemoveEntry(info);
    }

    method RemoveEntry(info: KeyInfo)
      requires IndicesLive() && WellMade(info)
      modifies this`keyToInfo, this`addrToInfo, this`subnetToInfo
      ensures IndicesLive()
      ensures keyToInfo == Without(old(keyToInfo), info.key, info)
      ensures addrToInfo == Without(old(addrToInfo), info.address, info)
      ensures subnetToInfo == Without(old(subnetToInfo), info.subnet, info)
    {
      keyToInfo := Without(keyToInfo, info.key, info);
      addrToInfo := Without(addrToInfo, info.address, info);
      subnetToInfo := Without(subnetToInfo, info.subnet, info);
    }

    /** The timer of a buffer fires. */
    method AddrBufferTimeout(addr: Addr, id: nat)
      requires Valid()
      modifies this`addrBuffer
      ensures Valid()
      ensures addrBuffer == if addr in old(addrBuffer) && old(addrBuffer)[addr].id == id
                            then old(addrBuffer) - {addr} else old(addrBuffer)
    {
      if addr in addrBuffer && addrBuffer[addr].id == id {
        addrBuffer := addrBuffer - {addr};
      }
    }

    method SubnetBufferTimeout(subnet: Subnet, id: nat)
      requires Valid()
      modifies this`subnetBuffer
      ensures Valid()
      ensures subnetBuffer == if subnet in old(subnetBuffer) && old(subnetBuffer)[subnet].id == id
                              then old(subnetBuffer) - {subnet} else old(subnetBuffer)
    {
      if subnet in subnetBuffer && subnetBuffer[subnet].id == id {
        subnetBuffer := subnetBuffer - {subnet};
      }
    }
  }

  ghost predicate Derives(addrOf: Key -> Addr, subnetOf: Key -> Subnet, w: Write)
  {
    match w.target
    case ToAddress(a) => addrOf(w.key) == a
    case ToSubnet(s) => subnetOf(w.key) == s
  }

  /** The map without `k`, if `k` still leads to `info`. */
  function Without(m: map<nat, KeyInfo>, k: nat, info: KeyInfo): (m': map<nat, KeyInfo>)
  {
    if k in m && m[k] == info then m - {k} else m
  }

  /** What `update` passes on for a new key: the packet waiting for its address,
      then the one waiting for its subnet. */
  ghost function Flushed(ab: map<Addr, Buffer>, sb: map<Subnet, Buffer>, key: Key, a: Addr, s: Subnet): (ws: seq<Write>)
  {
    (if a in ab then [Write(key, ab[a].packet, ToAddress(a))] else []) +
    (if s in sb then [Write(key, sb[s].packet, ToSubnet(s))] else [])
  }

  /** Two keys share an address. */
  method TwoKeysOneAddress() returns (store: KeyStore, newer: KeyInfo)
    ensures fresh(store) && store.Valid() && store.addrOf(1) == 7 && store.written == [] && store.taken == {}
    ensures 1 in store.keyToInfo && 2 in store.keyToInfo && store.keyToInfo[2] == newer
    ensures 7 in store.addrToInfo && store.addrToInfo[7] == newer && store.WellMade(newer)
  {
    store := new KeyStore((k: Key) => 7, (k: Key) => 7, (a: Addr) => 0, (s: Subnet) => 0);
    var older := store.Update(1);
    newer := store.Update(2);
  }

  /** The newer one takes over the index and times out, the older one stays known. */
  method Displaced() returns (store: KeyStore)
    ensures fresh(store) && store.Valid() && store.addrOf(1) == 7
    ensures 1 in store.keyToInfo && 7 !in store.addrToInfo && store.written == [] && store.taken == {}
  {
    var newer;
    store, newer := TwoKeysOneAddress();
    store.InfoTimeout(newer);
  }

  /** Then a packet comes to wait for the address, and finding the older key again
      does not release it. */
  method KnownKeyReleasesNothing(packet: Packet) returns (store: KeyStore)
    ensures store.addrOf(1) == 7 && 1 in store.keyToInfo
    ensures 7 in store.addrBuffer && store.addrBuffer[7].packet == packet && store.written == []
  {
    store := Displaced();
    var key, lookup := store.SendToAddress(7, packet);
    var found := store.Update(1);
  }
}
