/** The calls the command layer makes on the audio side (speech, horn) and its waits. */
module Audio {

  datatype SoundCall =
    | Speak(text: string)     // tts.say(text)
    | Horn                    // music.sound_play_threading(horn file)
    | Sleep(seconds: real)    // time.sleep(seconds)
}
