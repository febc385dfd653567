/** The part of SDL's event queue the engine and the debug tools react to.

    Keycodes are SDL2's integer `SDL_Keycode` values: printable keys are their
    character codes, the others carry bit 30. */
module Events {

  datatype Event =
    | Quit                                           // SDL_QUIT
    | KeyDown(key: int)                              // SDL_KEYDOWN, keysym.sym
    | KeyUp(key: int)                                // SDL_KEYUP
    | MouseButtonDown(button: int, x: int, y: int)   // SDL_MOUSEBUTTONDOWN
    | MouseButtonUp(button: int, x: int, y: int)     // SDL_MOUSEBUTTONUP
    | MouseMotion(x: int, y: int)                    // SDL_MOUSEMOTION
    | MouseWheel(preciseY: real, flipped: bool)      // SDL_MOUSEWHEEL; `flipped` is SDL_MOUSEWHEEL_FLIPPED
    | Other                                          // any other event type

  const KeyEscape := 27
  const Key1 := 49            // SDLK_1; SDLK_1 .. SDLK_9 are consecutive
  const Key9 := 57            // SDLK_9
  const KeyF3 := 0x4000003C
  const ArrowRight := 0x4000004F
  const ArrowLeft := 0x40000050
  const ArrowDown := 0x40000051
  const ArrowUp := 0x40000052

  /** SDL_BUTTON_LEFT. */
  const ButtonLeft := 1
}
