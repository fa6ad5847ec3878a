/** The messages between the signaling server and its clients. */
module Signaling {
  import opened Prelude

  datatype Uuid = Uuid(bytes: Bytes)

  datatype DeviceType = Mobile | Desktop | Web | Headless | Server

  datatype ClientInfoWithoutId = ClientInfoWithoutId(
    alias: string, version: string, deviceModel: Option<string>, deviceType: Option<DeviceType>, token: string)

  datatype ClientInfo = ClientInfo(id: Uuid, info: ClientInfoWithoutId)

  datatype WsServerSdpMessage = WsServerSdpMessage(peer: ClientInfo, sessionId: string, sdp: string)

  datatype WsServerMessage =
    | Hello(client: ClientInfo, peers: seq<ClientInfo>)
    | Join(peer: ClientInfo)
    | Update(peer: ClientInfo)
    | Left(peerId: Uuid)
    | Offer(offer: WsServerSdpMessage)
    | Answer(answer: WsServerSdpMessage)
    | Error(code: u16)

  datatype WsClientSdpMessage = WsClientSdpMessage(sessionId: string, target: Uuid, sdp: string)

  datatype WsClientMessage =
    | ClientUpdate(info: ClientInfoWithoutId)
    | ClientOffer(sdp: WsClientSdpMessage)
    | ClientAnswer(sdp: WsClientSdpMessage)
}
