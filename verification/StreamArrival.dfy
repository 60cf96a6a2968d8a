/** What the receiver of a stream gets to see, field by field. */
module StreamArrival {
  import opened Number160
  import opened Wrappers
  import opened MessageCodec
  import opened Decoder
  import opened MessageStream
  import opened StreamCuts
  import PA = PeerAddress

  /** A socket with its ports as sent, and with its IP unless that was skipped. */
  predicate SocketArrives(sent: Option<PA.Socket>, got: Option<PA.Socket>, skip: bool) {
    got.Some? == sent.Some? &&
    (sent.Some? ==>
       got.value.v6 == sent.value.v6 && got.value.udpPort == sent.value.udpPort && got.value.tcpPort == sent.value.tcpPort &&
       got.value.udtPort == sent.value.udtPort && got.value.ip == if skip then None else sent.value.ip)
  }

  /** The same socket but for the IP, which is the one the connection shows. */
  predicate SocketSeen(sent: Option<PA.Socket>, got: Option<PA.Socket>, ip: nat) {
    sent.Some? && got.Some? && got.value.v6 == sent.value.v6 && got.value.udpPort == sent.value.udpPort &&
    got.value.tcpPort == sent.value.tcpPort && got.value.udtPort == sent.value.udtPort && got.value.ip == Some(ip)
  }

  /** Flags, relays, internal socket and id are those sent. */
  predicate RestArrives(sent: PA.Address, got: PA.Address) {
    got.header == sent.header && got.relays == sent.relays && got.ipInternalSocket == sent.ipInternalSocket && got.peerId == sent.peerId
  }

  /** A neighbour as it arrives. */
  predicate AddressArrives(sent: PA.Address, got: PA.Address) {
    RestArrives(sent, got) && SocketArrives(sent.ipv4Socket, got.ipv4Socket, sent.header.skipIPv4) &&
    SocketArrives(sent.ipv6Socket, got.ipv6Socket, sent.header.skipIPv6)
  }

  /** The sender as it is seen: in the family of the connection it has the IP of the connection. */
  predicate SenderSeen(sent: PA.Address, got: PA.Address, socket: Inet) {
    RestArrives(sent, got) &&
    if socket.v6 then
      SocketSeen(sent.ipv6Socket, got.ipv6Socket, socket.ip) && SocketArrives(sent.ipv4Socket, got.ipv4Socket, sent.header.skipIPv4)
    else
      SocketSeen(sent.ipv4Socket, got.ipv4Socket, socket.ip) && SocketArrives(sent.ipv6Socket, got.ipv6Socket, sent.header.skipIPv6)
  }

  predicate NeighborsArrive(sent: seq<PA.Address>, got: seq<PA.Address>) {
    |got| == |sent| && forall l :: 0 <= l < |sent| ==> AddressArrives(sent[l], got[l])
  }

  /** A content that no map makes ambiguous: unchanged, but for the skipped IPs of neighbours. */
  predicate ContentArrives(sent: Content, got: Content) {
    if sent.Neighbors? then got.Neighbors? && NeighborsArrive(sent.addresses, got.addresses) else got == sent
  }

  predicate HeaderArrives(sent: Message, got: Message) {
    got.version == sent.version && got.msgType == sent.msgType && got.messageId == sent.messageId &&
    got.command == sent.command && got.recipient == sent.recipient && got.kinds == sent.kinds && got.options == sent.options
  }

  predicate MessageArrives(sent: Message, got: Message, socket: Inet) {
    HeaderArrives(sent, got) && SenderSeen(sent.sender, got.sender, socket) && |got.contents| == |sent.contents| &&
    forall j :: 0 <= j < |sent.contents| ==> ContentArrives(sent.contents[j], got.contents[j])
  }

  lemma TransmittedArrives(a: PA.Address)
    ensures AddressArrives(a, PA.Transmitted(a))
  {
  }

  lemma SenderIsSeen(a: PA.Address, socket: Inet)
    requires HasFamily(a, socket)
    ensures HasFamily(PA.Transmitted(a), socket) && SenderSeen(a, AsSeen(PA.Transmitted(a), socket), socket)
  {
  }

  lemma {:induction false} TransmittedAt(as_: seq<PA.Address>, l: nat)
    requires l < |as_|
    ensures AllTransmitted(as_)[l] == PA.Transmitted(as_[l])
  {
    if l > 0 {
      TransmittedAt(as_[1..], l - 1);
    }
  }

  lemma NeighborsDoArrive(as_: seq<PA.Address>)
    ensures NeighborsArrive(as_, AllTransmitted(as_))
  {
    forall l | 0 <= l < |as_| ensures AddressArrives(as_[l], AllTransmitted(as_)[l]) {
      TransmittedAt(as_, l);
      TransmittedArrives(as_[l]);
    }
  }

  lemma ContentDoesArrive(c: Content)
    requires IsMap(c)
    ensures ContentArrives(c, Arrives(c))
  {
    if c.Neighbors? {
      NeighborsDoArrive(c.addresses);
    } else {
      MapsArrive(c);
    }
  }

  lemma ExpectedArrives(m: Message, socket: Inet)
    requires HasFamily(m.sender, socket) && forall j :: 0 <= j < |m.contents| ==> IsMap(m.contents[j])
    ensures MessageArrives(m, Expected(m, socket), socket)
  {
    SenderIsSeen(m.sender, socket);
    forall j | 0 <= j < |m.contents| ensures ContentArrives(m.contents[j], Expected(m, socket).contents[j]) {
      ArrivesAt(m.contents, j);
      ContentDoesArrive(m.contents[j]);
    }
  }

  /** Whatever an encoder writes, wherever the bytes are cut: as many messages arrive, each with the header it was
      sent with, its contents, and its sender as the connection shows it; nothing is left unread and the decoder is
      as new. */
  lemma StreamArrives(ms: seq<Message>, chunks: seq<seq<Byte>>, socket: Inet)
    requires MessagesOk(ms, socket) && Genuine(ms) && Flatten(chunks) == EncodeMessages(ms, socket)
    ensures var s := ReceiveAll(chunks, socket);
            s.fields == Fresh() && s.unread == [] && !s.broken && |s.messages| == |ms| &&
            forall i :: 0 <= i < |ms| ==> MessageArrives(ms[i], s.messages[i], socket)
  {
    hide ReceiveAll, Expected;
    EncodedStreamArrives(ms, chunks, socket);
    forall i | 0 <= i < |ms| ensures MessageArrives(ms[i], AllExpected(ms, socket)[i], socket) {
      ExpectedAt(ms, i, socket);
      ExpectedArrives(ms[i], socket);
    }
  }
}
