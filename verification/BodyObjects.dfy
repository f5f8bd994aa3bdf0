/** The body objects: `poll_frame` as written, with the fields it updates. */
module BodyObjects {
  import opened Common
  import opened Body

  // `env` holds what the inner futures would answer; `asked` reports which of them were polled.
  class ServerRecvBody {
    var dataDone: bool
    var trailersDone: bool

    ghost function View(): ServerBody
      reads this
    {
      ServerBody(dataDone, trailersDone)
    }

    constructor ()
      ensures View() == SERVER_NEW
    {
      dataDone, trailersDone := false, false;
    }

    method PollFrame(env: Env) returns (out: Out)
      modifies this
      ensures (View(), out) == ServerPoll(old(View()), env)
    {
      if !dataDone {
        match env.data {
          case DataChunk(bytes) => return Data(bytes);
          case DataEnd => dataDone := true;
          case DataErr(e) => return StreamError(e);
          case DataPending => return Pending;
        }
      }
      if !trailersDone {
        match env.trailers {
          case TrailersSome(h) =>
            trailersDone := true;
            return Trailers(h);
          case TrailersNone =>
            trailersDone := true;
            return End;
          case TrailersErr(e) =>
            trailersDone := true;
            return StreamError(e);
          case TrailersPending =>
            return Pending;
        }
      }
      return End;
    }
  }

  class ClientRecvBody {
    var dataDone: bool
    var trailersDone: bool
    var isClosed: bool
    var errRx: bool
    var abortHandle: bool
    const deadline: bool
    var aborts: nat

    ghost function View(): ClientBody
      reads this
    {
      ClientBody(dataDone, trailersDone, isClosed, errRx, abortHandle, deadline, aborts)
    }

    constructor (errRx: bool, abortHandle: bool, deadline: bool)
      ensures View() == ClientNew(errRx, abortHandle, deadline)
    {
      dataDone, trailersDone, isClosed := false, false, false;
      this.errRx, this.abortHandle, this.deadline, this.aborts := errRx, abortHandle, deadline, 0;
    }

    method PollFrame(env: Env) returns (out: Out, asked: Asked)
      modifies this
      ensures (View(), out) == ClientPoll(old(View()), env)
      ensures asked == ClientAsks(old(View()), env)
    {
      asked := Asked(false, false, false, false);
      if isClosed {
        return End, asked;
      }
      if deadline {
        asked := asked.(deadline := true);
        if env.deadlineFired {
          isClosed := true;
          AbortForwarder();
          if !trailersDone {
            trailersDone := true;
            return Trailers(DEADLINE_TRAILERS), asked;
          } else {
            return End, asked;
          }
        }
      }
      if errRx {
        asked := asked.(rx := true);
        match env.rx {
          case RxErr(e) =>
            errRx := false;
            return ForwarderError(e), asked;
          case RxDropped =>
            errRx := false;
          case RxPending =>
        }
      }
      if !dataDone {
        asked := asked.(data := true);
        match env.data {
          case DataChunk(bytes) => return Data(bytes), asked;
          case DataEnd => dataDone := true;
          case DataErr(e) => return StreamError(e), asked;
          case DataPending => return Pending, asked;
        }
      }
      if !trailersDone {
        asked := asked.(trailers := true);
        match env.trailers {
          case TrailersSome(h) =>
            trailersDone := true;
            return Trailers(h), asked;
          case TrailersNone =>
            trailersDone := true;
            return End, asked;
          case TrailersErr(e) =>
            trailersDone := true;
            return StreamError(e), asked;
          case TrailersPending =>
            return Pending, asked;
        }
      }
      return End, asked;
    }

    // Option::take followed by abort; also what dropping the body does.
    method AbortForwarder()
      modifies this`abortHandle, this`aborts
      ensures View() == Abort(old(View()))
    {
      if abortHandle {
        abortHandle := false;
        aborts := aborts + 1;
      }
    }
  }
}
