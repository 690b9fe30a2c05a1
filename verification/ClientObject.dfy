/** class Client: one connection's buffers, names and registration flags. */
module ClientObject {
  import opened ServerState
  import Acts
  import Text
  import Framing

  class Client {
    const fd: int
    const id: nat
    const hostname: string
    var recvBuffer: string
    var sendBuffer: string
    var nickname: string
    var username: string
    var realname: string
    var passDone: bool
    var nickDone: bool
    var userDone: bool
    var registered: bool
    var prefix: string

    /** The registry's view of this client. */
    function Data(): ClientData
      reads this`nickname, this`username, this`realname, this`passDone, this`nickDone, this`userDone, this`registered,
            this`prefix
    {
      ClientData(id, nickname, username, hostname, realname, passDone, nickDone, userDone, registered, prefix)
    }

    constructor (fd: int, id: nat, hostname: string)
      ensures this.fd == fd && this.id == id && Data() == Acts.NewClient(id, hostname)
      ensures recvBuffer == "" && sendBuffer == ""
    {
      this.fd, this.id, this.hostname := fd, id, hostname;
      recvBuffer, sendBuffer, nickname, username, realname, prefix := "", "", "", "", "", "";
      passDone, nickDone, userDone, registered := false, false, false, false;
    }

    method AppendToRecvBuffer(str: string)
      modifies this`recvBuffer
      ensures recvBuffer == old(recvBuffer) + str
    {
      recvBuffer := recvBuffer + str;
    }

    /** Takes the next message out of the receive buffer. */
    method ExtractMessage() returns (found: bool, message: string)
      modifies this`recvBuffer
      ensures match Framing.Extract(old(recvBuffer))
              case None => !found && recvBuffer == old(recvBuffer)
              case Some((m, rest)) => found && message == m && recvBuffer == rest
    {
      var pos := Framing.FindCrlf(recvBuffer);
      message := "";
      if pos != |recvBuffer| {
        if pos + 2 > 512 {
          message := recvBuffer[..510];
          recvBuffer := recvBuffer[510..];
        } else {
          message := recvBuffer[..pos];
          recvBuffer := recvBuffer[pos + 2..];
        }
        return true, message;
      } else if |recvBuffer| >= 512 {
        message := recvBuffer[..510];
        recvBuffer := recvBuffer[510..];
        return true, message;
      }
      return false, message;
    }

    method AppendToSendBuffer(data: string)
      modifies this`sendBuffer
      ensures sendBuffer == old(sendBuffer) + data
    {
      sendBuffer := sendBuffer + data;
    }

    /** std::string::erase(0, count): at most the whole buffer goes. */
    method ClearSendBuffer(count: nat)
      modifies this`sendBuffer
      ensures sendBuffer == if count <= |old(sendBuffer)| then old(sendBuffer)[count..] else ""
    {
      sendBuffer := if count <= |sendBuffer| then sendBuffer[count..] else "";
    }

    /** A nickname ends at its first space. */
    method SetNickname(str: string)
      modifies this`nickname
      ensures nickname <= str && ' ' !in nickname && (|nickname| < |str| ==> str[|nickname|] == ' ')
      ensures ' ' !in str ==> nickname == str
    {
      var spacePos := Text.Find(str, ' ', 0);
      if spacePos != |str| {
        nickname := str[..spacePos];
      } else {
        nickname := str;
      }
    }

    method SetPrefix()
      modifies this`prefix
      ensures prefix == UserPrefix(nickname, username, hostname)
    {
      prefix := UserPrefix(nickname, username, hostname);
    }
  }
}
