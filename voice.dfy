/**
 * The pure pre-step of `handle_voice` in main.py: which audio attachment is
 * used, the 20 MB size gate, and the text handed to the agent for a transcript.
 */
module Voice {
  import opened Wrappers

  /** Attachments above this many bytes are refused (20 MiB). */
  const MaxAudioBytes := 20 * 1024 * 1024
  /** Transcripts longer than this are treated as meeting recordings. */
  const MeetingThreshold := 500
  const MeetingPrefix := "Analyze this meeting: "

  datatype AudioFile = AudioFile(fileId: string, fileSize: nat)

  datatype VoicePlan =
    | NoAudio                       // neither a voice note nor an audio file: nothing is done
    | TooLarge                      // the "File too large (>20MB)" notice, nothing downloaded
    | Download(fileId: string)      // fetch and transcribe this file

  /** A voice note takes precedence over an audio file. */
  function Attachment(voice: Option<AudioFile>, audio: Option<AudioFile>): (f: Option<AudioFile>)
    ensures f.Some? <==> voice.Some? || audio.Some?
    ensures voice.Some? ==> f == voice
    ensures voice.None? ==> f == audio
  {
    if voice.Some? then voice else audio
  }

  function PlanVoice(voice: Option<AudioFile>, audio: Option<AudioFile>): (p: VoicePlan)
    ensures p.NoAudio? <==> voice.None? && audio.None?
    ensures p.TooLarge? <==> Attachment(voice, audio).Some? && Attachment(voice, audio).value.fileSize > MaxAudioBytes
    ensures p.Download? ==> Attachment(voice, audio).Some?
                            && p.fileId == Attachment(voice, audio).value.fileId
                            && Attachment(voice, audio).value.fileSize <= MaxAudioBytes
  {
    match Attachment(voice, audio)
    case None => NoAudio
    case Some(f) => if f.fileSize > MaxAudioBytes then TooLarge else Download(f.fileId)
  }

  /** The user text the agent receives for a transcript. */
  function AgentInput(transcript: string): (input: string)
    ensures |transcript| > MeetingThreshold ==> input == MeetingPrefix + transcript
    ensures |transcript| <= MeetingThreshold ==> input == transcript
    ensures |input| > MeetingThreshold <==> |transcript| > MeetingThreshold
    ensures input[|input| - |transcript|..] == transcript
  {
    if |transcript| > MeetingThreshold then MeetingPrefix + transcript else transcript
  }
}
