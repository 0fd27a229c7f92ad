/**
 * Constants of the new engine's configuration package (colours, capacity
 * and processing defaults).
 */
module Config {

  /** An RGB colour triple, as the configuration writes colours. */
  datatype Rgb = Rgb(r: int, g: int, b: int)

  const Red := Rgb(255, 0, 0)
  const Green := Rgb(0, 255, 0)
  const Blue := Rgb(0, 0, 255)
  const White := Rgb(255, 255, 255)
  const Black := Rgb(0, 0, 0)
  const Gray := Rgb(200, 200, 200)
  const Yellow := Rgb(255, 255, 0)
  const DarkGray := Rgb(50, 50, 50)
  const LightGreen := Rgb(100, 255, 100)
  const Orange := Rgb(255, 165, 0)
  const Purple := Rgb(128, 0, 128)

  /** Default processing duration of a process and of a computer, in milliseconds. */
  const ProcessingTimeMs := 2000

  /** Admission limit of the connection system. */
  const MaxConnectionCapacity := 10
}
