/**
 * The tree of lookup tables, and the code that each byte has in Appendix B of RFC 7541.
 * Tables go by their number in the order of the source, the root being 0; their names there stand beside them.
 * A code is written with a 1 in front of its bits, which marks where it starts.
 */
module HuffmanTable {
  import opened Wire
  import opened BitStrings

  const TABLES: nat := 89

  /** What a table holds: the next table of the tree, or a decoded byte. */
  datatype Value = Partial(table: int) | Sym(byte: Byte)

  /** How many bits a table takes. */
  function Lookup(n: int): int
  {
    match n
    case 0 => 5
    case 14 => 2
    case 15 => 2
    case 16 => 2
    case 17 => 2
    case 18 => 2
    case 19 => 2
    case 20 => 2
    case 21 => 2
    case 22 => 2
    case 27 => 2
    case 31 => 2
    case 33 => 2
    case 34 => 2
    case 39 => 4
    case 44 => 2
    case 45 => 2
    case 46 => 2
    case 47 => 2
    case 51 => 3
    case 52 => 3
    case 53 => 3
    case 58 => 4
    case 59 => 4
    case 66 => 2
    case 67 => 3
    case 68 => 3
    case 70 => 4
    case 71 => 4
    case 87 => 2
    case 88 => 8
    case _ => 1
  }

  /** The entries: a byte, 256 plus the number of a table, or -1 past the end. */
  function Raw(n: int, i: int): int {
    match n
    case 0 => ( // HPACK_STRING
      match i
      case 0 => 48 case 1 => 49 case 2 => 50 case 3 => 97 case 4 => 99 case 5 => 101 case 6 => 105
      case 7 => 111 case 8 => 115 case 9 => 116 case 10 => 257 case 11 => 258 case 12 => 259 case 13 => 260
      case 14 => 261 case 15 => 262 case 16 => 263 case 17 => 264 case 18 => 265 case 19 => 266 case 20 => 267
      case 21 => 268 case 22 => 269 case 23 => 270 case 24 => 271 case 25 => 272 case 26 => 273 case 27 => 274
      case 28 => 275 case 29 => 276 case 30 => 277 case 31 => 278 case _ => -1)
    case 1 => (match i case 0 => 32 case 1 => 37 case _ => -1) // END0_01010
    case 2 => (match i case 0 => 45 case 1 => 46 case _ => -1) // END0_01011
    case 3 => (match i case 0 => 47 case 1 => 51 case _ => -1) // END0_01100
    case 4 => (match i case 0 => 52 case 1 => 53 case _ => -1) // END0_01101
    case 5 => (match i case 0 => 54 case 1 => 55 case _ => -1) // END0_01110
    case 6 => (match i case 0 => 56 case 1 => 57 case _ => -1) // END0_01111
    case 7 => (match i case 0 => 61 case 1 => 65 case _ => -1) // END0_10000
    case 8 => (match i case 0 => 95 case 1 => 98 case _ => -1) // END0_10001
    case 9 => (match i case 0 => 100 case 1 => 102 case _ => -1) // END0_10010
    case 10 => (match i case 0 => 103 case 1 => 104 case _ => -1) // END0_10011
    case 11 => (match i case 0 => 108 case 1 => 109 case _ => -1) // END0_10100
    case 12 => (match i case 0 => 110 case 1 => 112 case _ => -1) // END0_10101
    case 13 => (match i case 0 => 114 case 1 => 117 case _ => -1) // END0_10110
    case 14 => (match i case 0 => 58 case 1 => 66 case 2 => 67 case 3 => 68 case _ => -1) // END0_10111
    case 15 => (match i case 0 => 69 case 1 => 70 case 2 => 71 case 3 => 72 case _ => -1) // END0_11000
    case 16 => (match i case 0 => 73 case 1 => 74 case 2 => 75 case 3 => 76 case _ => -1) // END0_11001
    case 17 => (match i case 0 => 77 case 1 => 78 case 2 => 79 case 3 => 80 case _ => -1) // END0_11010
    case 18 => (match i case 0 => 81 case 1 => 82 case 2 => 83 case 3 => 84 case _ => -1) // END0_11011
    case 19 => (match i case 0 => 85 case 1 => 86 case 2 => 87 case 3 => 89 case _ => -1) // END0_11100
    case 20 => (match i case 0 => 106 case 1 => 107 case 2 => 113 case 3 => 118 case _ => -1) // END0_11101
    case 21 => (match i case 0 => 119 case 1 => 120 case 2 => 121 case 3 => 122 case _ => -1) // END0_11110
    case 22 => (match i case 0 => 279 case 1 => 280 case 2 => 281 case 3 => 282 case _ => -1) // END0_11111
    case 23 => (match i case 0 => 38 case 1 => 42 case _ => -1) // END5_00
    case 24 => (match i case 0 => 44 case 1 => 59 case _ => -1) // END5_01
    case 25 => (match i case 0 => 88 case 1 => 90 case _ => -1) // END5_10
    case 26 => (match i case 0 => 283 case 1 => 284 case _ => -1) // END5_11
    case 27 => (match i case 0 => 33 case 1 => 34 case 2 => 40 case 3 => 41 case _ => -1) // END7_0
    case 28 => (match i case 0 => 285 case 1 => 287 case _ => -1) // END7_1
    case 29 => (match i case 0 => 63 case 1 => 286 case _ => -1) // END8_0
    case 30 => (match i case 0 => 39 case 1 => 43 case _ => -1) // END9A_1
    case 31 => (match i case 0 => 124 case 1 => 288 case 2 => 289 case 3 => 290 case _ => -1) // END8_1
    case 32 => (match i case 0 => 35 case 1 => 62 case _ => -1) // END9B_01
    case 33 => (match i case 0 => 0 case 1 => 36 case 2 => 64 case 3 => 91 case _ => -1) // END9B_10
    case 34 => (match i case 0 => 93 case 1 => 126 case 2 => 291 case 3 => 292 case _ => -1) // END9B_11
    case 35 => (match i case 0 => 94 case 1 => 125 case _ => -1) // END13_10
    case 36 => (match i case 0 => 293 case 1 => 294 case _ => -1) // END13_11
    case 37 => (match i case 0 => 60 case 1 => 96 case _ => -1) // END14_0
    case 38 => (match i case 0 => 123 case 1 => 295 case _ => -1) // END14_1
    case 39 => ( // END15_1
      match i
      case 0 => 92 case 1 => 195 case 2 => 208 case 3 => 296 case 4 => 297 case 5 => 298 case 6 => 299
      case 7 => 300 case 8 => 301 case 9 => 302 case 10 => 303 case 11 => 307 case 12 => 308 case 13 => 309
      case 14 => 314 case 15 => 315 case _ => -1)
    case 40 => (match i case 0 => 128 case 1 => 130 case _ => -1) // END19_0011
    case 41 => (match i case 0 => 131 case 1 => 162 case _ => -1) // END19_0100
    case 42 => (match i case 0 => 184 case 1 => 194 case _ => -1) // END19_0101
    case 43 => (match i case 0 => 224 case 1 => 226 case _ => -1) // END19_0110
    case 44 => (match i case 0 => 153 case 1 => 161 case 2 => 167 case 3 => 172 case _ => -1) // END19_0111
    case 45 => (match i case 0 => 176 case 1 => 177 case 2 => 179 case 3 => 209 case _ => -1) // END19_1000
    case 46 => (match i case 0 => 216 case 1 => 217 case 2 => 227 case 3 => 229 case _ => -1) // END19_1001
    case 47 => (match i case 0 => 230 case 1 => 304 case 2 => 305 case 3 => 306 case _ => -1) // END19_1010
    case 48 => (match i case 0 => 129 case 1 => 132 case _ => -1) // END19_1010_01
    case 49 => (match i case 0 => 133 case 1 => 134 case _ => -1) // END19_1010_10
    case 50 => (match i case 0 => 136 case 1 => 146 case _ => -1) // END19_1010_11
    case 51 => ( // END19_1011
      match i
      case 0 => 154 case 1 => 156 case 2 => 160 case 3 => 163 case 4 => 164 case 5 => 169 case 6 => 170
      case 7 => 173 case _ => -1)
    case 52 => ( // END19_1100
      match i
      case 0 => 178 case 1 => 181 case 2 => 185 case 3 => 186 case 4 => 187 case 5 => 189 case 6 => 190
      case 7 => 196 case _ => -1)
    case 53 => ( // END19_1101
      match i
      case 0 => 198 case 1 => 228 case 2 => 232 case 3 => 233 case 4 => 310 case 5 => 311 case 6 => 312
      case 7 => 313 case _ => -1)
    case 54 => (match i case 0 => 1 case 1 => 135 case _ => -1) // END23A_100
    case 55 => (match i case 0 => 137 case 1 => 138 case _ => -1) // END23A_101
    case 56 => (match i case 0 => 139 case 1 => 140 case _ => -1) // END23A_110
    case 57 => (match i case 0 => 141 case 1 => 143 case _ => -1) // END23A_111
    case 58 => ( // END19_1110
      match i
      case 0 => 147 case 1 => 149 case 2 => 150 case 3 => 151 case 4 => 152 case 5 => 155 case 6 => 157
      case 7 => 158 case 8 => 165 case 9 => 166 case 10 => 168 case 11 => 174 case 12 => 175 case 13 => 180
      case 14 => 182 case 15 => 183 case _ => -1)
    case 59 => ( // END19_1111
      match i
      case 0 => 188 case 1 => 191 case 2 => 197 case 3 => 231 case 4 => 239 case 5 => 316 case 6 => 317
      case 7 => 318 case 8 => 319 case 9 => 320 case 10 => 321 case 11 => 322 case 12 => 323 case 13 => 324
      case 14 => 326 case 15 => 327 case _ => -1)
    case 60 => (match i case 0 => 9 case 1 => 142 case _ => -1) // END23B_0101
    case 61 => (match i case 0 => 144 case 1 => 145 case _ => -1) // END23B_0110
    case 62 => (match i case 0 => 148 case 1 => 159 case _ => -1) // END23B_0111
    case 63 => (match i case 0 => 171 case 1 => 206 case _ => -1) // END23B_1000
    case 64 => (match i case 0 => 215 case 1 => 225 case _ => -1) // END23B_1001
    case 65 => (match i case 0 => 236 case 1 => 237 case _ => -1) // END23B_1010
    case 66 => (match i case 0 => 199 case 1 => 207 case 2 => 234 case 3 => 235 case _ => -1) // END23B_1011
    case 67 => ( // END23B_1100
      match i
      case 0 => 192 case 1 => 193 case 2 => 200 case 3 => 201 case 4 => 202 case 5 => 205 case 6 => 210
      case 7 => 213 case _ => -1)
    case 68 => ( // END23B_1101
      match i
      case 0 => 218 case 1 => 219 case 2 => 238 case 3 => 240 case 4 => 242 case 5 => 243 case 6 => 255
      case 7 => 325 case _ => -1)
    case 69 => (match i case 0 => 203 case 1 => 204 case _ => -1) // END27A_111
    case 70 => ( // END23B_1110
      match i
      case 0 => 211 case 1 => 212 case 2 => 214 case 3 => 221 case 4 => 222 case 5 => 223 case 6 => 241
      case 7 => 244 case 8 => 245 case 9 => 246 case 10 => 247 case 11 => 248 case 12 => 250 case 13 => 251
      case 14 => 252 case 15 => 253 case _ => -1)
    case 71 => ( // END23B_1111
      match i
      case 0 => 254 case 1 => 328 case 2 => 329 case 3 => 330 case 4 => 331 case 5 => 332 case 6 => 333
      case 7 => 334 case 8 => 335 case 9 => 336 case 10 => 337 case 11 => 338 case 12 => 339 case 13 => 340
      case 14 => 341 case 15 => 342 case _ => -1)
    case 72 => (match i case 0 => 2 case 1 => 3 case _ => -1) // END27B_0001
    case 73 => (match i case 0 => 4 case 1 => 5 case _ => -1) // END27B_0010
    case 74 => (match i case 0 => 6 case 1 => 7 case _ => -1) // END27B_0011
    case 75 => (match i case 0 => 8 case 1 => 11 case _ => -1) // END27B_0100
    case 76 => (match i case 0 => 12 case 1 => 14 case _ => -1) // END27B_0101
    case 77 => (match i case 0 => 15 case 1 => 16 case _ => -1) // END27B_0110
    case 78 => (match i case 0 => 17 case 1 => 18 case _ => -1) // END27B_0111
    case 79 => (match i case 0 => 19 case 1 => 20 case _ => -1) // END27B_1000
    case 80 => (match i case 0 => 21 case 1 => 23 case _ => -1) // END27B_1001
    case 81 => (match i case 0 => 24 case 1 => 25 case _ => -1) // END27B_1010
    case 82 => (match i case 0 => 26 case 1 => 27 case _ => -1) // END27B_1011
    case 83 => (match i case 0 => 28 case 1 => 29 case _ => -1) // END27B_1100
    case 84 => (match i case 0 => 30 case 1 => 31 case _ => -1) // END27B_1101
    case 85 => (match i case 0 => 127 case 1 => 220 case _ => -1) // END27B_1110
    case 86 => (match i case 0 => 249 case 1 => 343 case _ => -1) // END27B_1111
    case 87 => (match i case 0 => 10 case 1 => 13 case 2 => 22 case 3 => 344 case _ => -1) // END31_1
    case _ => -1
  }

  function Entry(n: int, i: int): Option<Value> {
    var r := Raw(n, i);
    if r < 0 then None else if r < 256 then Some(Sym(r)) else Some(Partial(r - 256))
  }

  /** Appendix B of RFC 7541. */
  function CodeOf(x: int): int {
    if x < 32 then (
      match x
      case 0 => 0x3ff8 case 1 => 0xffffd8 case 2 => 0x1fffffe2 case 3 => 0x1fffffe3 case 4 => 0x1fffffe4
      case 5 => 0x1fffffe5 case 6 => 0x1fffffe6 case 7 => 0x1fffffe7 case 8 => 0x1fffffe8 case 9 => 0x1ffffea
      case 10 => 0x7ffffffc case 11 => 0x1fffffe9 case 12 => 0x1fffffea case 13 => 0x7ffffffd
      case 14 => 0x1fffffeb case 15 => 0x1fffffec case 16 => 0x1fffffed case 17 => 0x1fffffee
      case 18 => 0x1fffffef case 19 => 0x1ffffff0 case 20 => 0x1ffffff1 case 21 => 0x1ffffff2
      case 22 => 0x7ffffffe case 23 => 0x1ffffff3 case 24 => 0x1ffffff4 case 25 => 0x1ffffff5
      case 26 => 0x1ffffff6 case 27 => 0x1ffffff7 case 28 => 0x1ffffff8 case 29 => 0x1ffffff9
      case 30 => 0x1ffffffa case _ => 0x1ffffffb
    ) else if x < 64 then (
      match x
      case 32 => 0x54 case 33 => 0x7f8 case 34 => 0x7f9 case 35 => 0x1ffa case 36 => 0x3ff9 case 37 => 0x55
      case 38 => 0x1f8 case 39 => 0xffa case 40 => 0x7fa case 41 => 0x7fb case 42 => 0x1f9 case 43 => 0xffb
      case 44 => 0x1fa case 45 => 0x56 case 46 => 0x57 case 47 => 0x58 case 48 => 0x20 case 49 => 0x21
      case 50 => 0x22 case 51 => 0x59 case 52 => 0x5a case 53 => 0x5b case 54 => 0x5c case 55 => 0x5d
      case 56 => 0x5e case 57 => 0x5f case 58 => 0xdc case 59 => 0x1fb case 60 => 0xfffc case 61 => 0x60
      case 62 => 0x1ffb case _ => 0x7fc
    ) else if x < 96 then (
      match x
      case 64 => 0x3ffa case 65 => 0x61 case 66 => 0xdd case 67 => 0xde case 68 => 0xdf case 69 => 0xe0
      case 70 => 0xe1 case 71 => 0xe2 case 72 => 0xe3 case 73 => 0xe4 case 74 => 0xe5 case 75 => 0xe6
      case 76 => 0xe7 case 77 => 0xe8 case 78 => 0xe9 case 79 => 0xea case 80 => 0xeb case 81 => 0xec
      case 82 => 0xed case 83 => 0xee case 84 => 0xef case 85 => 0xf0 case 86 => 0xf1 case 87 => 0xf2
      case 88 => 0x1fc case 89 => 0xf3 case 90 => 0x1fd case 91 => 0x3ffb case 92 => 0xffff0 case 93 => 0x3ffc
      case 94 => 0x7ffc case _ => 0x62
    ) else if x < 128 then (
      match x
      case 96 => 0xfffd case 97 => 0x23 case 98 => 0x63 case 99 => 0x24 case 100 => 0x64 case 101 => 0x25
      case 102 => 0x65 case 103 => 0x66 case 104 => 0x67 case 105 => 0x26 case 106 => 0xf4 case 107 => 0xf5
      case 108 => 0x68 case 109 => 0x69 case 110 => 0x6a case 111 => 0x27 case 112 => 0x6b case 113 => 0xf6
      case 114 => 0x6c case 115 => 0x28 case 116 => 0x29 case 117 => 0x6d case 118 => 0xf7 case 119 => 0xf8
      case 120 => 0xf9 case 121 => 0xfa case 122 => 0xfb case 123 => 0xfffe case 124 => 0xffc
      case 125 => 0x7ffd case 126 => 0x3ffd case _ => 0x1ffffffc
    ) else if x < 160 then (
      match x
      case 128 => 0x1fffe6 case 129 => 0x7fffd2 case 130 => 0x1fffe7 case 131 => 0x1fffe8 case 132 => 0x7fffd3
      case 133 => 0x7fffd4 case 134 => 0x7fffd5 case 135 => 0xffffd9 case 136 => 0x7fffd6 case 137 => 0xffffda
      case 138 => 0xffffdb case 139 => 0xffffdc case 140 => 0xffffdd case 141 => 0xffffde case 142 => 0x1ffffeb
      case 143 => 0xffffdf case 144 => 0x1ffffec case 145 => 0x1ffffed case 146 => 0x7fffd7
      case 147 => 0xffffe0 case 148 => 0x1ffffee case 149 => 0xffffe1 case 150 => 0xffffe2 case 151 => 0xffffe3
      case 152 => 0xffffe4 case 153 => 0x3fffdc case 154 => 0x7fffd8 case 155 => 0xffffe5 case 156 => 0x7fffd9
      case 157 => 0xffffe6 case 158 => 0xffffe7 case _ => 0x1ffffef
    ) else if x < 192 then (
      match x
      case 160 => 0x7fffda case 161 => 0x3fffdd case 162 => 0x1fffe9 case 163 => 0x7fffdb case 164 => 0x7fffdc
      case 165 => 0xffffe8 case 166 => 0xffffe9 case 167 => 0x3fffde case 168 => 0xffffea case 169 => 0x7fffdd
      case 170 => 0x7fffde case 171 => 0x1fffff0 case 172 => 0x3fffdf case 173 => 0x7fffdf case 174 => 0xffffeb
      case 175 => 0xffffec case 176 => 0x3fffe0 case 177 => 0x3fffe1 case 178 => 0x7fffe0 case 179 => 0x3fffe2
      case 180 => 0xffffed case 181 => 0x7fffe1 case 182 => 0xffffee case 183 => 0xffffef case 184 => 0x1fffea
      case 185 => 0x7fffe2 case 186 => 0x7fffe3 case 187 => 0x7fffe4 case 188 => 0xfffff0 case 189 => 0x7fffe5
      case 190 => 0x7fffe6 case _ => 0xfffff1
    ) else if x < 224 then (
      match x
      case 192 => 0x7ffffe0 case 193 => 0x7ffffe1 case 194 => 0x1fffeb case 195 => 0xffff1 case 196 => 0x7fffe7
      case 197 => 0xfffff2 case 198 => 0x7fffe8 case 199 => 0x3ffffec case 200 => 0x7ffffe2
      case 201 => 0x7ffffe3 case 202 => 0x7ffffe4 case 203 => 0xfffffde case 204 => 0xfffffdf
      case 205 => 0x7ffffe5 case 206 => 0x1fffff1 case 207 => 0x3ffffed case 208 => 0xffff2
      case 209 => 0x3fffe3 case 210 => 0x7ffffe6 case 211 => 0xfffffe0 case 212 => 0xfffffe1
      case 213 => 0x7ffffe7 case 214 => 0xfffffe2 case 215 => 0x1fffff2 case 216 => 0x3fffe4
      case 217 => 0x3fffe5 case 218 => 0x7ffffe8 case 219 => 0x7ffffe9 case 220 => 0x1ffffffd
      case 221 => 0xfffffe3 case 222 => 0xfffffe4 case _ => 0xfffffe5
    ) else (
      match x
      case 224 => 0x1fffec case 225 => 0x1fffff3 case 226 => 0x1fffed case 227 => 0x3fffe6 case 228 => 0x7fffe9
      case 229 => 0x3fffe7 case 230 => 0x3fffe8 case 231 => 0xfffff3 case 232 => 0x7fffea case 233 => 0x7fffeb
      case 234 => 0x3ffffee case 235 => 0x3ffffef case 236 => 0x1fffff4 case 237 => 0x1fffff5
      case 238 => 0x7ffffea case 239 => 0xfffff4 case 240 => 0x7ffffeb case 241 => 0xfffffe6
      case 242 => 0x7ffffec case 243 => 0x7ffffed case 244 => 0xfffffe7 case 245 => 0xfffffe8
      case 246 => 0xfffffe9 case 247 => 0xfffffea case 248 => 0xfffffeb case 249 => 0x1ffffffe
      case 250 => 0xfffffec case 251 => 0xfffffed case 252 => 0xfffffee case 253 => 0xfffffef
      case 254 => 0xffffff0 case _ => 0x7ffffee
    )
  }

  /** The bits that lead from the root to a table. */
  function Prefix(n: int): int {
    match n
    case 0 => 0x1 case 1 => 0x2a case 2 => 0x2b case 3 => 0x2c case 4 => 0x2d case 5 => 0x2e case 6 => 0x2f
    case 7 => 0x30 case 8 => 0x31 case 9 => 0x32 case 10 => 0x33 case 11 => 0x34 case 12 => 0x35
    case 13 => 0x36 case 14 => 0x37 case 15 => 0x38 case 16 => 0x39 case 17 => 0x3a case 18 => 0x3b
    case 19 => 0x3c case 20 => 0x3d case 21 => 0x3e case 22 => 0x3f case 23 => 0xfc case 24 => 0xfd
    case 25 => 0xfe case 26 => 0xff case 27 => 0x1fe case 28 => 0x1ff case 29 => 0x3fe case 30 => 0x7fd
    case 31 => 0x3ff case 32 => 0xffd case 33 => 0xffe case 34 => 0xfff case 35 => 0x3ffe case 36 => 0x3fff
    case 37 => 0x7ffe case 38 => 0x7fff case 39 => 0xffff case 40 => 0xffff3 case 41 => 0xffff4
    case 42 => 0xffff5 case 43 => 0xffff6 case 44 => 0xffff7 case 45 => 0xffff8 case 46 => 0xffff9
    case 47 => 0xffffa case 48 => 0x3fffe9 case 49 => 0x3fffea case 50 => 0x3fffeb case 51 => 0xffffb
    case 52 => 0xffffc case 53 => 0xffffd case 54 => 0x7fffec case 55 => 0x7fffed case 56 => 0x7fffee
    case 57 => 0x7fffef case 58 => 0xffffe case 59 => 0xfffff case 60 => 0xfffff5 case 61 => 0xfffff6
    case 62 => 0xfffff7 case 63 => 0xfffff8 case 64 => 0xfffff9 case 65 => 0xfffffa case 66 => 0xfffffb
    case 67 => 0xfffffc case 68 => 0xfffffd case 69 => 0x7ffffef case 70 => 0xfffffe case 71 => 0xffffff
    case 72 => 0xffffff1 case 73 => 0xffffff2 case 74 => 0xffffff3 case 75 => 0xffffff4 case 76 => 0xffffff5
    case 77 => 0xffffff6 case 78 => 0xffffff7 case 79 => 0xffffff8 case 80 => 0xffffff9 case 81 => 0xffffffa
    case 82 => 0xffffffb case 83 => 0xffffffc case 84 => 0xffffffd case 85 => 0xffffffe case 86 => 0xfffffff
    case 87 => 0x1fffffff case _ => 0x7fffffff
  }

  /** The table that an entry leads on from to this one; the root has none. */
  function Parent(n: int): int {
    match n
    case 1 => 0 case 2 => 0 case 3 => 0 case 4 => 0 case 5 => 0 case 6 => 0 case 7 => 0 case 8 => 0 case 9 => 0
    case 10 => 0 case 11 => 0 case 12 => 0 case 13 => 0 case 14 => 0 case 15 => 0 case 16 => 0 case 17 => 0
    case 18 => 0 case 19 => 0 case 20 => 0 case 21 => 0 case 22 => 0 case 23 => 22 case 24 => 22 case 25 => 22
    case 26 => 22 case 27 => 26 case 28 => 26 case 29 => 28 case 30 => 29 case 31 => 28 case 32 => 31
    case 33 => 31 case 34 => 31 case 35 => 34 case 36 => 34 case 37 => 36 case 38 => 36 case 39 => 38
    case 40 => 39 case 41 => 39 case 42 => 39 case 43 => 39 case 44 => 39 case 45 => 39 case 46 => 39
    case 47 => 39 case 48 => 47 case 49 => 47 case 50 => 47 case 51 => 39 case 52 => 39 case 53 => 39
    case 54 => 53 case 55 => 53 case 56 => 53 case 57 => 53 case 58 => 39 case 59 => 39 case 60 => 59
    case 61 => 59 case 62 => 59 case 63 => 59 case 64 => 59 case 65 => 59 case 66 => 59 case 67 => 59
    case 68 => 59 case 69 => 68 case 70 => 59 case 71 => 59 case 72 => 71 case 73 => 71 case 74 => 71
    case 75 => 71 case 76 => 71 case 77 => 71 case 78 => 71 case 79 => 71 case 80 => 71 case 81 => 71
    case 82 => 71 case 83 => 71 case 84 => 71 case 85 => 71 case 86 => 71 case 87 => 86 case _ => 87
  }

  /** Where in that table the entry stands. */
  function ParentIndex(n: int): int {
    match n
    case 1 => 10 case 2 => 11 case 3 => 12 case 4 => 13 case 5 => 14 case 6 => 15 case 7 => 16 case 8 => 17
    case 9 => 18 case 10 => 19 case 11 => 20 case 12 => 21 case 13 => 22 case 14 => 23 case 15 => 24
    case 16 => 25 case 17 => 26 case 18 => 27 case 19 => 28 case 20 => 29 case 21 => 30 case 22 => 31
    case 23 => 0 case 24 => 1 case 25 => 2 case 26 => 3 case 27 => 0 case 28 => 1 case 29 => 0 case 30 => 1
    case 31 => 1 case 32 => 1 case 33 => 2 case 34 => 3 case 35 => 2 case 36 => 3 case 37 => 0 case 38 => 1
    case 39 => 1 case 40 => 3 case 41 => 4 case 42 => 5 case 43 => 6 case 44 => 7 case 45 => 8 case 46 => 9
    case 47 => 10 case 48 => 1 case 49 => 2 case 50 => 3 case 51 => 11 case 52 => 12 case 53 => 13 case 54 => 4
    case 55 => 5 case 56 => 6 case 57 => 7 case 58 => 14 case 59 => 15 case 60 => 5 case 61 => 6 case 62 => 7
    case 63 => 8 case 64 => 9 case 65 => 10 case 66 => 11 case 67 => 12 case 68 => 13 case 69 => 7
    case 70 => 14 case 71 => 15 case 72 => 1 case 73 => 2 case 74 => 3 case 75 => 4 case 76 => 5 case 77 => 6
    case 78 => 7 case 79 => 8 case 80 => 9 case 81 => 10 case 82 => 11 case 83 => 12 case 84 => 13
    case 85 => 14 case 86 => 15 case 87 => 1 case _ => 3
  }

  /** The table that holds a byte. */
  function Home(x: int): int {
    if x < 32 then (
      match x
      case 0 => 33 case 1 => 54 case 2 => 72 case 3 => 72 case 4 => 73 case 5 => 73 case 6 => 74 case 7 => 74
      case 8 => 75 case 9 => 60 case 10 => 87 case 11 => 75 case 12 => 76 case 13 => 87 case 14 => 76
      case 15 => 77 case 16 => 77 case 17 => 78 case 18 => 78 case 19 => 79 case 20 => 79 case 21 => 80
      case 22 => 87 case 23 => 80 case 24 => 81 case 25 => 81 case 26 => 82 case 27 => 82 case 28 => 83
      case 29 => 83 case 30 => 84 case _ => 84
    ) else if x < 64 then (
      match x
      case 32 => 1 case 33 => 27 case 34 => 27 case 35 => 32 case 36 => 33 case 37 => 1 case 38 => 23
      case 39 => 30 case 40 => 27 case 41 => 27 case 42 => 23 case 43 => 30 case 44 => 24 case 45 => 2
      case 46 => 2 case 47 => 3 case 48 => 0 case 49 => 0 case 50 => 0 case 51 => 3 case 52 => 4 case 53 => 4
      case 54 => 5 case 55 => 5 case 56 => 6 case 57 => 6 case 58 => 14 case 59 => 24 case 60 => 37
      case 61 => 7 case 62 => 32 case _ => 29
    ) else if x < 96 then (
      match x
      case 64 => 33 case 65 => 7 case 66 => 14 case 67 => 14 case 68 => 14 case 69 => 15 case 70 => 15
      case 71 => 15 case 72 => 15 case 73 => 16 case 74 => 16 case 75 => 16 case 76 => 16 case 77 => 17
      case 78 => 17 case 79 => 17 case 80 => 17 case 81 => 18 case 82 => 18 case 83 => 18 case 84 => 18
      case 85 => 19 case 86 => 19 case 87 => 19 case 88 => 25 case 89 => 19 case 90 => 25 case 91 => 33
      case 92 => 39 case 93 => 34 case 94 => 35 case _ => 8
    ) else if x < 128 then (
      match x
      case 96 => 37 case 97 => 0 case 98 => 8 case 99 => 0 case 100 => 9 case 101 => 0 case 102 => 9
      case 103 => 10 case 104 => 10 case 105 => 0 case 106 => 20 case 107 => 20 case 108 => 11 case 109 => 11
      case 110 => 12 case 111 => 0 case 112 => 12 case 113 => 20 case 114 => 13 case 115 => 0 case 116 => 0
      case 117 => 13 case 118 => 20 case 119 => 21 case 120 => 21 case 121 => 21 case 122 => 21 case 123 => 38
      case 124 => 31 case 125 => 35 case 126 => 34 case _ => 85
    ) else if x < 160 then (
      match x
      case 128 => 40 case 129 => 48 case 130 => 40 case 131 => 41 case 132 => 48 case 133 => 49 case 134 => 49
      case 135 => 54 case 136 => 50 case 137 => 55 case 138 => 55 case 139 => 56 case 140 => 56 case 141 => 57
      case 142 => 60 case 143 => 57 case 144 => 61 case 145 => 61 case 146 => 50 case 147 => 58 case 148 => 62
      case 149 => 58 case 150 => 58 case 151 => 58 case 152 => 58 case 153 => 44 case 154 => 51 case 155 => 58
      case 156 => 51 case 157 => 58 case 158 => 58 case _ => 62
    ) else if x < 192 then (
      match x
      case 160 => 51 case 161 => 44 case 162 => 41 case 163 => 51 case 164 => 51 case 165 => 58 case 166 => 58
      case 167 => 44 case 168 => 58 case 169 => 51 case 170 => 51 case 171 => 63 case 172 => 44 case 173 => 51
      case 174 => 58 case 175 => 58 case 176 => 45 case 177 => 45 case 178 => 52 case 179 => 45 case 180 => 58
      case 181 => 52 case 182 => 58 case 183 => 58 case 184 => 42 case 185 => 52 case 186 => 52 case 187 => 52
      case 188 => 59 case 189 => 52 case 190 => 52 case _ => 59
    ) else if x < 224 then (
      match x
      case 192 => 67 case 193 => 67 case 194 => 42 case 195 => 39 case 196 => 52 case 197 => 59 case 198 => 53
      case 199 => 66 case 200 => 67 case 201 => 67 case 202 => 67 case 203 => 69 case 204 => 69 case 205 => 67
      case 206 => 63 case 207 => 66 case 208 => 39 case 209 => 45 case 210 => 67 case 211 => 70 case 212 => 70
      case 213 => 67 case 214 => 70 case 215 => 64 case 216 => 46 case 217 => 46 case 218 => 68 case 219 => 68
      case 220 => 85 case 221 => 70 case 222 => 70 case _ => 70
    ) else (
      match x
      case 224 => 43 case 225 => 64 case 226 => 43 case 227 => 46 case 228 => 53 case 229 => 46 case 230 => 47
      case 231 => 59 case 232 => 53 case 233 => 53 case 234 => 66 case 235 => 66 case 236 => 65 case 237 => 65
      case 238 => 68 case 239 => 59 case 240 => 68 case 241 => 70 case 242 => 68 case 243 => 68 case 244 => 70
      case 245 => 70 case 246 => 70 case 247 => 70 case 248 => 70 case 249 => 86 case 250 => 70 case 251 => 70
      case 252 => 70 case 253 => 70 case 254 => 71 case _ => 68
    )
  }

  /** Where in its table a byte stands. */
  function HomeIndex(x: int): int {
    if x < 32 then (
      match x
      case 0 => 0 case 1 => 0 case 2 => 0 case 3 => 1 case 4 => 0 case 5 => 1 case 6 => 0 case 7 => 1
      case 8 => 0 case 9 => 0 case 10 => 0 case 11 => 1 case 12 => 0 case 13 => 1 case 14 => 1 case 15 => 0
      case 16 => 1 case 17 => 0 case 18 => 1 case 19 => 0 case 20 => 1 case 21 => 0 case 22 => 2 case 23 => 1
      case 24 => 0 case 25 => 1 case 26 => 0 case 27 => 1 case 28 => 0 case 29 => 1 case 30 => 0 case _ => 1
    ) else if x < 64 then (
      match x
      case 32 => 0 case 33 => 0 case 34 => 1 case 35 => 0 case 36 => 1 case 37 => 1 case 38 => 0 case 39 => 0
      case 40 => 2 case 41 => 3 case 42 => 1 case 43 => 1 case 44 => 0 case 45 => 0 case 46 => 1 case 47 => 0
      case 48 => 0 case 49 => 1 case 50 => 2 case 51 => 1 case 52 => 0 case 53 => 1 case 54 => 0 case 55 => 1
      case 56 => 0 case 57 => 1 case 58 => 0 case 59 => 1 case 60 => 0 case 61 => 0 case 62 => 1 case _ => 0
    ) else if x < 96 then (
      match x
      case 64 => 2 case 65 => 1 case 66 => 1 case 67 => 2 case 68 => 3 case 69 => 0 case 70 => 1 case 71 => 2
      case 72 => 3 case 73 => 0 case 74 => 1 case 75 => 2 case 76 => 3 case 77 => 0 case 78 => 1 case 79 => 2
      case 80 => 3 case 81 => 0 case 82 => 1 case 83 => 2 case 84 => 3 case 85 => 0 case 86 => 1 case 87 => 2
      case 88 => 0 case 89 => 3 case 90 => 1 case 91 => 3 case 92 => 0 case 93 => 0 case 94 => 0 case _ => 0
    ) else if x < 128 then (
      match x
      case 96 => 1 case 97 => 3 case 98 => 1 case 99 => 4 case 100 => 0 case 101 => 5 case 102 => 1
      case 103 => 0 case 104 => 1 case 105 => 6 case 106 => 0 case 107 => 1 case 108 => 0 case 109 => 1
      case 110 => 0 case 111 => 7 case 112 => 1 case 113 => 2 case 114 => 0 case 115 => 8 case 116 => 9
      case 117 => 1 case 118 => 3 case 119 => 0 case 120 => 1 case 121 => 2 case 122 => 3 case 123 => 0
      case 124 => 0 case 125 => 1 case 126 => 1 case _ => 0
    ) else if x < 160 then (
      match x
      case 128 => 0 case 129 => 0 case 130 => 1 case 131 => 0 case 132 => 1 case 133 => 0 case 134 => 1
      case 135 => 1 case 136 => 0 case 137 => 0 case 138 => 1 case 139 => 0 case 140 => 1 case 141 => 0
      case 142 => 1 case 143 => 1 case 144 => 0 case 145 => 1 case 146 => 1 case 147 => 0 case 148 => 0
      case 149 => 1 case 150 => 2 case 151 => 3 case 152 => 4 case 153 => 0 case 154 => 0 case 155 => 5
      case 156 => 1 case 157 => 6 case 158 => 7 case _ => 1
    ) else if x < 192 then (
      match x
      case 160 => 2 case 161 => 1 case 162 => 1 case 163 => 3 case 164 => 4 case 165 => 8 case 166 => 9
      case 167 => 2 case 168 => 10 case 169 => 5 case 170 => 6 case 171 => 0 case 172 => 3 case 173 => 7
      case 174 => 11 case 175 => 12 case 176 => 0 case 177 => 1 case 178 => 0 case 179 => 2 case 180 => 13
      case 181 => 1 case 182 => 14 case 183 => 15 case 184 => 0 case 185 => 2 case 186 => 3 case 187 => 4
      case 188 => 0 case 189 => 5 case 190 => 6 case _ => 1
    ) else if x < 224 then (
      match x
      case 192 => 0 case 193 => 1 case 194 => 1 case 195 => 1 case 196 => 7 case 197 => 2 case 198 => 0
      case 199 => 0 case 200 => 2 case 201 => 3 case 202 => 4 case 203 => 0 case 204 => 1 case 205 => 5
      case 206 => 1 case 207 => 1 case 208 => 2 case 209 => 3 case 210 => 6 case 211 => 0 case 212 => 1
      case 213 => 7 case 214 => 2 case 215 => 0 case 216 => 0 case 217 => 1 case 218 => 0 case 219 => 1
      case 220 => 1 case 221 => 3 case 222 => 4 case _ => 5
    ) else (
      match x
      case 224 => 0 case 225 => 1 case 226 => 1 case 227 => 2 case 228 => 1 case 229 => 3 case 230 => 0
      case 231 => 3 case 232 => 2 case 233 => 3 case 234 => 2 case 235 => 3 case 236 => 0 case 237 => 1
      case 238 => 2 case 239 => 4 case 240 => 3 case 241 => 6 case 242 => 4 case 243 => 5 case 244 => 7
      case 245 => 8 case 246 => 9 case 247 => 10 case 248 => 11 case 249 => 0 case 250 => 12 case 251 => 13
      case 252 => 14 case 253 => 15 case 254 => 0 case _ => 6
    )
  }

  predicate HomeOk(x: int) {
    0 <= Home(x) < TABLES && 0 <= HomeIndex(x) && Raw(Home(x), HomeIndex(x)) == x
  }

  predicate ParentOk(n: int) {
    0 <= Parent(n) < n && 0 <= ParentIndex(n) && Raw(Parent(n), ParentIndex(n)) == 256 + n
  }

  /** The code of an entry is the code of its table and then the bits of its index. */
  predicate EntryOk(n: int, i: int) {
    var r, c := Raw(n, i), Prefix(n) * Power(Lookup(n)) + i;
    if r < 0 then i < 0 || i >= Power(Lookup(n)) || n >= TABLES - 1
    else i < Power(Lookup(n)) && if r < 256 then CodeOf(r) == c else r < 256 + TABLES && Prefix(r - 256) == c
  }

  // --- the two tables agree, entry by entry ---

  lemma Entries0(i: int)
    ensures EntryOk(0, i)
  {
  }

  lemma Entries1(i: int)
    ensures EntryOk(1, i) && EntryOk(2, i) && EntryOk(3, i)
  {
  }

  lemma Entries4(i: int)
    ensures EntryOk(4, i) && EntryOk(5, i) && EntryOk(6, i)
  {
  }

  lemma Entries7(i: int)
    ensures EntryOk(7, i) && EntryOk(8, i) && EntryOk(9, i)
  {
  }

  lemma Entries10(i: int)
    ensures EntryOk(10, i) && EntryOk(11, i) && EntryOk(12, i)
  {
  }

  lemma Entries13(i: int)
    ensures EntryOk(13, i) && EntryOk(14, i)
  {
  }

  lemma Entries15(i: int)
    ensures EntryOk(15, i) && EntryOk(16, i)
  {
  }

  lemma Entries17(i: int)
    ensures EntryOk(17, i) && EntryOk(18, i)
  {
  }

  lemma Entries19(i: int)
    ensures EntryOk(19, i) && EntryOk(20, i)
  {
  }

  lemma Entries21(i: int)
    ensures EntryOk(21, i) && EntryOk(22, i)
  {
  }

  lemma Entries23(i: int)
    ensures EntryOk(23, i) && EntryOk(24, i) && EntryOk(25, i)
  {
  }

  lemma Entries26(i: int)
    ensures EntryOk(26, i) && EntryOk(27, i) && EntryOk(28, i)
  {
  }

  lemma Entries29(i: int)
    ensures EntryOk(29, i) && EntryOk(30, i) && EntryOk(31, i)
  {
  }

  lemma Entries32(i: int)
    ensures EntryOk(32, i) && EntryOk(33, i)
  {
  }

  lemma Entries34(i: int)
    ensures EntryOk(34, i) && EntryOk(35, i) && EntryOk(36, i)
  {
  }

  lemma Entries37(i: int)
    ensures EntryOk(37, i) && EntryOk(38, i)
  {
  }

  lemma Entries39(i: int)
    ensures EntryOk(39, i)
  {
  }

  lemma Entries40(i: int)
    ensures EntryOk(40, i) && EntryOk(41, i) && EntryOk(42, i)
  {
  }

  lemma Entries43(i: int)
    ensures EntryOk(43, i) && EntryOk(44, i)
  {
  }

  lemma Entries45(i: int)
    ensures EntryOk(45, i)
  {
  }

  lemma Entries46(i: int)
    ensures EntryOk(46, i)
  {
  }

  lemma Entries47(i: int)
    ensures EntryOk(47, i) && EntryOk(48, i)
  {
  }

  lemma Entries49(i: int)
    ensures EntryOk(49, i) && EntryOk(50, i)
  {
  }

  lemma Entries51(i: int)
    ensures EntryOk(51, i)
  {
  }

  lemma Entries52(i: int)
    ensures EntryOk(52, i)
  {
  }

  lemma Entries53(i: int)
    ensures EntryOk(53, i)
  {
  }

  lemma Entries54(i: int)
    ensures EntryOk(54, i) && EntryOk(55, i)
  {
  }

  lemma Entries56(i: int)
    ensures EntryOk(56, i) && EntryOk(57, i)
  {
  }

  lemma Entries58(i: int)
    ensures EntryOk(58, i)
  {
  }

  lemma Entries59(i: int)
    ensures EntryOk(59, i)
  {
  }

  lemma Entries60(i: int)
    ensures EntryOk(60, i) && EntryOk(61, i)
  {
  }

  lemma Entries62(i: int)
    ensures EntryOk(62, i) && EntryOk(63, i)
  {
  }

  lemma Entries64(i: int)
    ensures EntryOk(64, i) && EntryOk(65, i)
  {
  }

  lemma Entries66(i: int)
    ensures EntryOk(66, i)
  {
  }

  lemma Entries67(i: int)
    ensures EntryOk(67, i)
  {
  }

  lemma Entries68(i: int)
    ensures EntryOk(68, i)
  {
  }

  lemma Entries69(i: int)
    ensures EntryOk(69, i)
  {
  }

  lemma Entries70(i: int)
    ensures EntryOk(70, i)
  {
  }

  lemma Entries71(i: int)
    ensures EntryOk(71, i)
  {
  }

  lemma Entries72(i: int)
    ensures EntryOk(72, i) && EntryOk(73, i)
  {
  }

  lemma Entries74(i: int)
    ensures EntryOk(74, i) && EntryOk(75, i)
  {
  }

  lemma Entries76(i: int)
    ensures EntryOk(76, i) && EntryOk(77, i)
  {
  }

  lemma Entries78(i: int)
    ensures EntryOk(78, i) && EntryOk(79, i)
  {
  }

  lemma Entries80(i: int)
    ensures EntryOk(80, i) && EntryOk(81, i)
  {
  }

  lemma Entries82(i: int)
    ensures EntryOk(82, i) && EntryOk(83, i)
  {
  }

  lemma Entries84(i: int)
    ensures EntryOk(84, i) && EntryOk(85, i)
  {
  }

  lemma Entries86(i: int)
    ensures EntryOk(86, i) && EntryOk(87, i)
  {
  }

  lemma NoEntries(n: int, i: int)
    requires n >= TABLES - 1
    ensures EntryOk(n, i)
  {
  }

  /** Every entry of every table: a byte is where its code in Appendix B leads, a table where its bits lead. */
  lemma Entries(n: int, i: int)
    requires 0 <= n
    ensures EntryOk(n, i)
  {
    hide EntryOk;
    if n < 1 { Entries0(i); }
    else if n < 4 { Entries1(i); }
    else if n < 7 { Entries4(i); }
    else if n < 10 { Entries7(i); }
    else if n < 13 { Entries10(i); }
    else if n < 15 { Entries13(i); }
    else if n < 17 { Entries15(i); }
    else if n < 19 { Entries17(i); }
    else if n < 21 { Entries19(i); }
    else if n < 23 { Entries21(i); }
    else if n < 26 { Entries23(i); }
    else if n < 29 { Entries26(i); }
    else if n < 32 { Entries29(i); }
    else if n < 34 { Entries32(i); }
    else if n < 37 { Entries34(i); }
    else if n < 39 { Entries37(i); }
    else if n < 40 { Entries39(i); }
    else if n < 43 { Entries40(i); }
    else if n < 45 { Entries43(i); }
    else if n < 46 { Entries45(i); }
    else if n < 47 { Entries46(i); }
    else if n < 49 { Entries47(i); }
    else if n < 51 { Entries49(i); }
    else if n < 52 { Entries51(i); }
    else if n < 53 { Entries52(i); }
    else if n < 54 { Entries53(i); }
    else if n < 56 { Entries54(i); }
    else if n < 58 { Entries56(i); }
    else if n < 59 { Entries58(i); }
    else if n < 60 { Entries59(i); }
    else if n < 62 { Entries60(i); }
    else if n < 64 { Entries62(i); }
    else if n < 66 { Entries64(i); }
    else if n < 67 { Entries66(i); }
    else if n < 68 { Entries67(i); }
    else if n < 69 { Entries68(i); }
    else if n < 70 { Entries69(i); }
    else if n < 71 { Entries70(i); }
    else if n < 72 { Entries71(i); }
    else if n < 74 { Entries72(i); }
    else if n < 76 { Entries74(i); }
    else if n < 78 { Entries76(i); }
    else if n < 80 { Entries78(i); }
    else if n < 82 { Entries80(i); }
    else if n < 84 { Entries82(i); }
    else if n < 86 { Entries84(i); }
    else if n < 88 { Entries86(i); }
    else { NoEntries(n, i); }
  }

  // --- every byte and every table but the root has its place ---

  lemma Homes0(x: int)
    requires 0 <= x < 16
    ensures HomeOk(x)
  {
  }

  lemma Homes16(x: int)
    requires 16 <= x < 32
    ensures HomeOk(x)
  {
  }

  lemma Homes32(x: int)
    requires 32 <= x < 64
    ensures HomeOk(x)
  {
  }

  lemma Homes64(x: int)
    requires 64 <= x < 96
    ensures HomeOk(x)
  {
  }

  lemma Homes96(x: int)
    requires 96 <= x < 128
    ensures HomeOk(x)
  {
  }

  lemma Homes128(x: int)
    requires 128 <= x < 144
    ensures HomeOk(x)
  {
  }

  lemma Homes144(x: int)
    requires 144 <= x < 160
    ensures HomeOk(x)
  {
  }

  lemma Homes160(x: int)
    requires 160 <= x < 176
    ensures HomeOk(x)
  {
  }

  lemma Homes176(x: int)
    requires 176 <= x < 192
    ensures HomeOk(x)
  {
  }

  lemma Homes192(x: int)
    requires 192 <= x < 208
    ensures HomeOk(x)
  {
  }

  lemma Homes208(x: int)
    requires 208 <= x < 224
    ensures HomeOk(x)
  {
  }

  lemma Homes224(x: int)
    requires 224 <= x < 240
    ensures HomeOk(x)
  {
  }

  lemma Homes240(x: int)
    requires 240 <= x < 256
    ensures HomeOk(x)
  {
  }

  lemma Homes(x: Byte)
    ensures HomeOk(x)
  {
    hide HomeOk;
    if x < 16 { Homes0(x); }
    else if x < 32 { Homes16(x); }
    else if x < 64 { Homes32(x); }
    else if x < 96 { Homes64(x); }
    else if x < 128 { Homes96(x); }
    else if x < 144 { Homes128(x); }
    else if x < 160 { Homes144(x); }
    else if x < 176 { Homes160(x); }
    else if x < 192 { Homes176(x); }
    else if x < 208 { Homes192(x); }
    else if x < 224 { Homes208(x); }
    else if x < 240 { Homes224(x); }
    else { Homes240(x); }
  }

  lemma Parents1(n: int)
    requires 1 <= n < 20
    ensures ParentOk(n)
  {
  }

  lemma Parents20(n: int)
    requires 20 <= n < 34
    ensures ParentOk(n)
  {
  }

  lemma Parents34(n: int)
    requires 34 <= n < 46
    ensures ParentOk(n)
  {
  }

  lemma Parents46(n: int)
    requires 46 <= n < 56
    ensures ParentOk(n)
  {
  }

  lemma Parents56(n: int)
    requires 56 <= n < 66
    ensures ParentOk(n)
  {
  }

  lemma Parents66(n: int)
    requires 66 <= n < 78
    ensures ParentOk(n)
  {
  }

  lemma Parents78(n: int)
    requires 78 <= n < 89
    ensures ParentOk(n)
  {
  }

  lemma Parents(n: int)
    requires 0 < n < TABLES
    ensures ParentOk(n)
  {
    hide ParentOk;

    if n < 20 { Parents1(n); }
    else if n < 34 { Parents20(n); }
    else if n < 46 { Parents34(n); }
    else if n < 56 { Parents46(n); }
    else if n < 66 { Parents56(n); }
    else if n < 78 { Parents66(n); }
    else { Parents78(n); }
  }
}
