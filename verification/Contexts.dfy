/**
 * The part of EventHandler the proxy calls back: the contexts of netfilter/NFEventHandler.cpp, and what is handed on
 * to the application. In the program it is the event handler itself; here it is an object of its own, so that the
 * proxy can call it and the event handler can call the proxy.
 */
module Contexts {
  import opened Bytes
  import opened Socks
  import opened Operations
  import opened ProxyModel

  // UDPContext: the options of the endpoint's first datagram.
  type Options = seq<byte>

  class Contexts {
    var m_udpCtxMap: map<Id, Options>

    // nf_udpPostReceive, and the options of each posting.
    ghost var toApp: seq<Delivered>
    ghost var toAppOptions: seq<Options>

    constructor ()
      ensures m_udpCtxMap == map[] && toApp == []
    {
      m_udpCtxMap, toApp, toAppOptions := map[], [], [];
    }

    // What an endpoint without a context would get goes nowhere.
    ghost function Shown(id: Id, delivery: Option<Delivery>): seq<Delivered>
      reads this`m_udpCtxMap
    {
      if delivery.Some? && id in m_udpCtxMap then [Delivered(id, delivery.value)] else []
    }

    /** onUdpReceiveComplete */
    method OnUdpReceiveComplete(id: Id, delivery: Delivery)
      modifies this`toApp, this`toAppOptions
      ensures toApp == old(toApp) + Shown(id, Some(delivery))
      ensures toAppOptions == old(toAppOptions) + if id in m_udpCtxMap then [m_udpCtxMap[id]] else []
    {
      if id !in m_udpCtxMap {
        return;
      }
      toApp := toApp + [Delivered(id, delivery)];
      toAppOptions := toAppOptions + [m_udpCtxMap[id]];
    }

    method Add(id: Id, options: Options)
      modifies this`m_udpCtxMap
      ensures m_udpCtxMap == old(m_udpCtxMap)[id := options]
    {
      m_udpCtxMap := m_udpCtxMap[id := options];
    }

    // The end of udpClosed.
    method Remove(id: Id)
      modifies this`m_udpCtxMap
      ensures m_udpCtxMap == old(m_udpCtxMap) - {id}
    {
      if id in m_udpCtxMap {
        m_udpCtxMap := m_udpCtxMap - {id};
      }
    }

    // The end of free: the contexts go one by one.
    method Clear()
      modifies this`m_udpCtxMap
      ensures m_udpCtxMap == map[]
    {
      while m_udpCtxMap != map[]
        decreases |m_udpCtxMap|
      {
        var id :| id in m_udpCtxMap;
        m_udpCtxMap := m_udpCtxMap - {id};
      }
    }
  }
}
