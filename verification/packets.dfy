// Packets as the requests see them: the kind, the id and role bytes, and the payload.
module Packets {
  import opened Objects

  datatype Kind =
    | NoPkt | LoginPkt | UsersPkt | InvitePkt | RevokePkt | AcceptPkt | DeclinePkt | MovePkt | ResignPkt
    | AckPkt | NackPkt | InvitedPkt | RevokedPkt | AcceptedPkt | DeclinedPkt | MovedPkt | ResignedPkt | EndedPkt

  datatype Payload = Nothing | Text(text: string) | Roster(rows: seq<(string, int)>)

  datatype Packet = Packet(kind: Kind, id: nat, role: nat, payload: Payload)

  datatype Sent = Sent(to: Client, packet: Packet)
}
