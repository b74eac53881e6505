/** The room page's phase machine: the `phase` and `showConsent` state, the
    effects that react to session fields, and the button handlers. The
    handlers act on the session object they are given; navigation and the
    match-context update are returned. */
module RoomPage {
  import opened Common
  import opened Domain
  import MatchConnection

  datatype Phase = Lobby | Upload | Waiting | Analyzing | Countdown | Done

  class RoomPage {
    var phase: Phase
    var showConsent: bool

    constructor ()
      ensures phase == Lobby && !showConsent
    {
      phase := Lobby;
      showConsent := false;
    }

    /** The consent effect: the modal opens when the server asks for consent
        the user has not given; it is never closed here. */
    method ConsentEffect(consentRequired: bool, consented: bool)
      modifies this
      ensures phase == old(phase)
      ensures showConsent == (old(showConsent) || (consentRequired && !consented))
    {
      if consentRequired && !consented {
        showConsent := true;
      }
    }

    /** The analysis effect: any progress record moves to `analyzing`. */
    method AnalyzingEffect(analyzing: Option<MatchConnection.Analysis>)
      modifies this
      ensures showConsent == old(showConsent)
      ensures phase == (if analyzing.Some? then Analyzing else old(phase))
    {
      if analyzing.Some? {
        phase := Analyzing;
      }
    }

    /** The countdown effect: any value other than `null`, even a countdown
        without seconds, moves to `countdown`. */
    method CountdownEffect(countdown: Option<MatchConnection.CountdownValue>)
      modifies this
      ensures showConsent == old(showConsent)
      ensures phase == (if countdown.Some? then Countdown else old(phase))
    {
      if countdown.Some? {
        phase := Countdown;
      }
    }

    /** The results effect: results are handed to the match context (first
        result) and the page goes to `/results` (second result). */
    method ResultsEffect(results: Option<Report>) returns (stored: Option<Report>, navigate: Option<string>)
      ensures results.Some? ==> stored == results && navigate == Some("/results")
      ensures results.None? ==> stored.None? && navigate.None?
    {
      if results.Some? {
        stored := results;
        navigate := Some("/results");
      } else {
        stored := None;
        navigate := None;
      }
    }

    /** `handleRoomReady`: without consent only the modal opens; with consent
        the grant is sent and the upload step begins. */
    method HandleRoomReady(conn: MatchConnection.Session, consented: bool)
      requires conn.Valid()
      modifies this, conn
      ensures conn.Valid()
      ensures !consented ==> showConsent && phase == old(phase)
                             && conn.View() == old(conn.View()) && conn.channels == old(conn.channels)
      ensures consented ==> showConsent == old(showConsent) && phase == Upload
                            && conn.View() == old(conn.View()).(consentRequired := false)
                            && conn.channels == MatchConnection.Transmit(old(conn.channels), old(conn.active),
                                                 MatchConnection.Encode(MatchConnection.Command.GrantConsent))
      ensures conn.active == old(conn.active)
    {
      if !consented {
        showConsent := true;
        return;
      }
      conn.GrantConsent();
      phase := Upload;
    }

    /** `handleConsented`: the modal closes, the grant is sent, and the
        upload step begins. */
    method HandleConsented(conn: MatchConnection.Session)
      requires conn.Valid()
      modifies this, conn
      ensures conn.Valid() && conn.active == old(conn.active)
      ensures !showConsent && phase == Upload
      ensures conn.View() == old(conn.View()).(consentRequired := false)
      ensures conn.channels == MatchConnection.Transmit(old(conn.channels), old(conn.active),
                                 MatchConnection.Encode(MatchConnection.Command.GrantConsent))
    {
      showConsent := false;
      conn.GrantConsent();
      phase := Upload;
    }

    /** `handlePhotoReady`: a non-empty data URL is uploaded and the page
        waits; anything else changes nothing. */
    method HandlePhotoReady(conn: MatchConnection.Session, dataUrl: Option<string>)
      requires conn.Valid()
      modifies this, conn
      ensures conn.Valid() && conn.active == old(conn.active) && conn.View() == old(conn.View())
      ensures showConsent == old(showConsent)
      ensures Truthy(dataUrl) ==>
                phase == Waiting
                && conn.channels == MatchConnection.Transmit(old(conn.channels), old(conn.active),
                     MatchConnection.Encode(MatchConnection.Command.UploadPhoto(MatchConnection.PhotoPayload(dataUrl.value))))
      ensures !Truthy(dataUrl) ==> phase == old(phase) && conn.channels == old(conn.channels)
    {
      if Truthy(dataUrl) {
        conn.UploadPhoto(dataUrl.value);
        phase := Waiting;
      }
    }

    /** The ready button: sends `ready` and stays waiting. */
    method ReadyClicked(conn: MatchConnection.Session)
      requires conn.Valid()
      modifies this, conn
      ensures conn.Valid() && conn.active == old(conn.active) && conn.View() == old(conn.View())
      ensures phase == Waiting && showConsent == old(showConsent)
      ensures conn.channels == MatchConnection.Transmit(old(conn.channels), old(conn.active),
                                 MatchConnection.Encode(MatchConnection.Command.MarkReady))
    {
      conn.MarkReady();
      phase := Waiting;
    }

    /** `handleLeave`: leaves the session, then goes home. */
    method HandleLeave(conn: MatchConnection.Session) returns (navigate: string)
      requires conn.Valid()
      modifies conn
      ensures conn.Valid() && conn.active.None?
      ensures conn.View() == MatchConnection.AfterLeave(old(conn.View()))
      ensures navigate == "/"
    {
      conn.Leave();
      navigate := "/";
    }

    /** The countdown overlay's completion. */
    method CountdownComplete()
      modifies this
      ensures phase == Done && showConsent == old(showConsent)
    {
      phase := Done;
    }
  }
}
